/**
 * The entities of the dashboard (src/lib/types.ts) and its label tables.
 * Field names follow Dafny style: `interest_rate` is `interestRate`,
 * `term_months` is `termMonths`, and so on. A `string | null` field is an
 * `Option<string>`.
 */
module Types {
  import opened Wrappers

  datatype AssetCategory = Cash | RealEstate | Vehicles | Investments | OtherAssets

  datatype LiabilityCategory = Mortgages | Loans | CreditCards | OtherDebts

  /** `'income' | 'expense'`, the type of a transaction category and of a budget. */
  datatype CategoryType = Income | Expense

  datatype Asset = Asset(id: string, name: string, category: AssetCategory, amount: real)

  datatype Liability = Liability(
    id: string, name: string, category: LiabilityCategory, amount: real,
    interestRate: Option<real>)

  datatype NetWorthHistory = NetWorthHistory(
    id: string, date: string, totalAssets: real, totalLiabilities: real, netWorth: real)

  datatype TransactionCategory = TransactionCategory(id: string, name: string, kind: CategoryType)

  datatype Transaction = Transaction(
    id: string, description: string, amount: real, date: string, categoryId: string)

  datatype Budget = Budget(id: string, category: string, kind: CategoryType, amount: real, month: string)

  datatype Investment = Investment(
    id: string, name: string, symbol: Option<string>, quantity: real, purchasePrice: real,
    purchaseDate: string)

  datatype Loan = Loan(
    id: string, name: string, amount: real, interestRate: real, termMonths: int,
    monthlyPayment: real, startDate: string)

  datatype Document = Document(
    id: string, name: string, description: Option<string>, category: string, filePath: string,
    fileType: string, fileSize: real, createdAt: string)

  /** The keys of ASSET_CATEGORIES in table order: the five categories, none twice. */
  function AssetCategoryOrder(): (r: seq<AssetCategory>)
    ensures |r| == 5
    ensures forall i, j :: 0 <= i < j < |r| ==> r[i] != r[j]
  {
    [Cash, RealEstate, Vehicles, Investments, OtherAssets]
  }

  /** Every asset category has its row in the table. */
  lemma AssetCategoryListed(c: AssetCategory)
    ensures c in AssetCategoryOrder()
  {
    var r := AssetCategoryOrder();
    match c
    case Cash => assert r[0] == c;
    case RealEstate => assert r[1] == c;
    case Vehicles => assert r[2] == c;
    case Investments => assert r[3] == c;
    case OtherAssets => assert r[4] == c;
  }

  /** ASSET_CATEGORIES: the display label of each asset category. */
  function AssetLabel(c: AssetCategory): (text: string)
    ensures |text| > 0
  {
    match c
    case Cash => "Cash & Bank Accounts"
    case RealEstate => "Real Estate"
    case Vehicles => "Vehicles"
    case Investments => "Investments"
    case OtherAssets => "Other Assets"
  }

  /** The keys of LIABILITY_CATEGORIES in table order: the four categories, none twice. */
  function LiabilityCategoryOrder(): (r: seq<LiabilityCategory>)
    ensures |r| == 4
    ensures forall i, j :: 0 <= i < j < |r| ==> r[i] != r[j]
  {
    [Mortgages, Loans, CreditCards, OtherDebts]
  }

  /** Every liability category has its row in the table. */
  lemma LiabilityCategoryListed(c: LiabilityCategory)
    ensures c in LiabilityCategoryOrder()
  {
    var r := LiabilityCategoryOrder();
    match c
    case Mortgages => assert r[0] == c;
    case Loans => assert r[1] == c;
    case CreditCards => assert r[2] == c;
    case OtherDebts => assert r[3] == c;
  }

  /** LIABILITY_CATEGORIES: the display label of each liability category. */
  function LiabilityLabel(c: LiabilityCategory): (text: string)
    ensures |text| > 0
  {
    match c
    case Mortgages => "Mortgages"
    case Loans => "Loans"
    case CreditCards => "Credit Cards"
    case OtherDebts => "Other Debts"
  }

  /** Different categories have different labels, so a label identifies its category. */
  lemma LabelsDistinct(c: AssetCategory, d: AssetCategory, l: LiabilityCategory, m: LiabilityCategory)
    ensures c != d ==> AssetLabel(c) != AssetLabel(d)
    ensures l != m ==> LiabilityLabel(l) != LiabilityLabel(m)
  {
  }

  /** DOCUMENT_CATEGORIES: seven document category keys and their labels. */
  function DocumentCategories(): (table: map<string, string>)
    ensures table.Keys == {"will", "power_of_attorney", "investment", "tax", "insurance", "property", "other"}
    ensures forall key :: key in table ==> |table[key]| > 0
  {
    map[
      "will" := "Will & Estate",
      "power_of_attorney" := "Power of Attorney",
      "investment" := "Investment Statements",
      "tax" := "Tax Documents",
      "insurance" := "Insurance Policies",
      "property" := "Property Documents",
      "other" := "Other Documents"]
  }
}
