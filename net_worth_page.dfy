/**
 * The net-worth page (src/pages/net-worth.tsx): the asset and liability
 * breakdowns by category, one entry per row of the category table in
 * table order, and the condition under which a calculation can be saved.
 */
module NetWorthPage {
  import opened Wrappers
  import opened Types
  import opened Sums
  import opened Grouping
  import opened NetWorthHook

  /** One breakdown entry: a category's display label and its total. */
  datatype CategoryTotal = CategoryTotal(category: string, amount: real)

  function RowAmount(row: CategoryTotal): real { row.amount }

  /** `x => key(x) is one of ks`. */
  function KeyIn<T, K(==)>(key: T -> K, ks: seq<K>): T -> bool
  {
    x => key(x) in ks
  }

  predicate Distinct<K(==)>(ks: seq<K>)
  {
    forall i, j :: 0 <= i < j < |ks| ==> ks[i] != ks[j]
  }

  /**
   * `Object.entries(table).map(([k, label]) => ({ category: label, amount: sum of s with key k }))`
   * over the table's keys `order`.
   */
  function Breakdown<T, K(==)>(s: seq<T>, key: T -> K, val: T -> real, caption: K -> string, order: seq<K>): (rows: seq<CategoryTotal>)
    ensures |rows| == |order|
    ensures forall i :: 0 <= i < |order| ==>
      rows[i].category == caption(order[i]) && rows[i].amount == Sum(Filter(s, KeyIs(key, order[i])), val)
  {
    if |order| == 0 then []
    else
      var row := CategoryTotal(caption(order[0]), Sum(Filter(s, KeyIs(key, order[0])), val));
      [row] + Breakdown(s, key, val, caption, order[1..])
  }

  /** With distinct keys the entries add up to the total over the elements whose key is listed. */
  lemma {:induction false} BreakdownSum<T, K>(s: seq<T>, key: T -> K, val: T -> real, caption: K -> string, order: seq<K>)
    requires Distinct(order)
    ensures Sum(Breakdown(s, key, val, caption, order), RowAmount) == Sum(Filter(s, KeyIn(key, order)), val)
  {
    if |order| == 0 {
      FilterNone(s, KeyIn(key, order));
    } else {
      var k, rest := order[0], order[1..];
      assert Distinct(rest) by {
        forall i, j | 0 <= i < j < |rest|
          ensures rest[i] != rest[j]
        {
          assert rest[i] == order[i + 1] && rest[j] == order[j + 1];
        }
      }
      BreakdownSum(s, key, val, caption, rest);
      forall j | 0 <= j < |rest|
        ensures rest[j] != k
      {
        assert rest[j] == order[j + 1];
      }
      SumFilterOr(s, KeyIs(key, k), KeyIn(key, rest), val);
      assert order == [k] + rest;
      FilterCongruent(s, KeyIn(key, order), Either(KeyIs(key, k), KeyIn(key, rest)));
    }
  }

  /** When every element's key is listed, the entries add up to the whole total. */
  lemma BreakdownTotal<T, K>(s: seq<T>, key: T -> K, val: T -> real, caption: K -> string, order: seq<K>)
    requires Distinct(order)
    requires forall x :: x in s ==> key(x) in order
    ensures Sum(Breakdown(s, key, val, caption, order), RowAmount) == Sum(s, val)
  {
    BreakdownSum(s, key, val, caption, order);
    FilterAll(s, KeyIn(key, order));
  }

  function AssetCategoryOf(a: Asset): AssetCategory { a.category }

  function LiabilityCategoryOf(l: Liability): LiabilityCategory { l.category }

  /** `assetsByCategory`. */
  function AssetsByCategory(assets: seq<Asset>): seq<CategoryTotal>
  {
    Breakdown(assets, AssetCategoryOf, AssetAmount, AssetLabel, AssetCategoryOrder())
  }

  /** `liabilitiesByCategory`. */
  function LiabilitiesByCategory(liabilities: seq<Liability>): seq<CategoryTotal>
  {
    Breakdown(liabilities, LiabilityCategoryOf, LiabilityAmount, LiabilityLabel, LiabilityCategoryOrder())
  }

  /**
   * One entry per asset category in table order; the entry labelled with
   * a category's label is the only one so labelled and holds the sum of
   * that category's assets (0 when it has none).
   */
  lemma AssetEntries(assets: seq<Asset>, c: AssetCategory)
    ensures |AssetsByCategory(assets)| == 5
    ensures forall i :: 0 <= i < 5 ==> AssetsByCategory(assets)[i].category == AssetLabel(AssetCategoryOrder()[i])
    ensures exists i :: 0 <= i < 5 && AssetCategoryOrder()[i] == c
    ensures forall i :: 0 <= i < 5 && AssetsByCategory(assets)[i].category == AssetLabel(c) ==>
      AssetsByCategory(assets)[i].amount == Sum(Filter(assets, KeyIs(AssetCategoryOf, c)), AssetAmount)
    ensures (forall a :: a in assets ==> a.category != c) ==>
      forall i :: 0 <= i < 5 && AssetsByCategory(assets)[i].category == AssetLabel(c) ==> AssetsByCategory(assets)[i].amount == 0.0
  {
    var order := AssetCategoryOrder();
    AssetCategoryListed(c);
    forall i | 0 <= i < 5 && AssetsByCategory(assets)[i].category == AssetLabel(c)
      ensures order[i] == c
    {
      LabelsDistinct(order[i], c, Mortgages, Mortgages);
    }
    if forall a :: a in assets ==> a.category != c {
      forall a | a in assets
        ensures !KeyIs(AssetCategoryOf, c)(a)
      {
        assert AssetCategoryOf(a) != c;
      }
      FilterNone(assets, KeyIs(AssetCategoryOf, c));
    }
  }

  /** The same for the liability categories. */
  lemma LiabilityEntries(liabilities: seq<Liability>, c: LiabilityCategory)
    ensures |LiabilitiesByCategory(liabilities)| == 4
    ensures forall i :: 0 <= i < 4 ==> LiabilitiesByCategory(liabilities)[i].category == LiabilityLabel(LiabilityCategoryOrder()[i])
    ensures exists i :: 0 <= i < 4 && LiabilityCategoryOrder()[i] == c
    ensures forall i :: 0 <= i < 4 && LiabilitiesByCategory(liabilities)[i].category == LiabilityLabel(c) ==>
      LiabilitiesByCategory(liabilities)[i].amount == Sum(Filter(liabilities, KeyIs(LiabilityCategoryOf, c)), LiabilityAmount)
    ensures (forall l :: l in liabilities ==> l.category != c) ==>
      forall i :: 0 <= i < 4 && LiabilitiesByCategory(liabilities)[i].category == LiabilityLabel(c) ==> LiabilitiesByCategory(liabilities)[i].amount == 0.0
  {
    var order := LiabilityCategoryOrder();
    LiabilityCategoryListed(c);
    forall i | 0 <= i < 4 && LiabilitiesByCategory(liabilities)[i].category == LiabilityLabel(c)
      ensures order[i] == c
    {
      LabelsDistinct(Cash, Cash, order[i], c);
    }
    if forall l :: l in liabilities ==> l.category != c {
      forall l | l in liabilities
        ensures !KeyIs(LiabilityCategoryOf, c)(l)
      {
        assert LiabilityCategoryOf(l) != c;
      }
      FilterNone(liabilities, KeyIs(LiabilityCategoryOf, c));
    }
  }

  /** Every asset falls in one of the five categories, so the breakdown adds up to the total assets. */
  lemma AssetBreakdownTotal(assets: seq<Asset>)
    ensures Sum(AssetsByCategory(assets), RowAmount) == TotalAssets(assets)
  {
    forall a | a in assets
      ensures AssetCategoryOf(a) in AssetCategoryOrder()
    {
      AssetCategoryListed(a.category);
    }
    BreakdownTotal(assets, AssetCategoryOf, AssetAmount, AssetLabel, AssetCategoryOrder());
  }

  /** Every liability falls in one of the four categories, so the breakdown adds up to the total liabilities. */
  lemma LiabilityBreakdownTotal(liabilities: seq<Liability>)
    ensures Sum(LiabilitiesByCategory(liabilities), RowAmount) == TotalLiabilities(liabilities)
  {
    forall l | l in liabilities
      ensures LiabilityCategoryOf(l) in LiabilityCategoryOrder()
    {
      LiabilityCategoryListed(l.category);
    }
    BreakdownTotal(liabilities, LiabilityCategoryOf, LiabilityAmount, LiabilityLabel, LiabilityCategoryOrder());
  }

  /** The figures the save dialog stores as the calculation's result. */
  datatype SavedResult = SavedResult(totalAssets: real, totalLiabilities: real, netWorth: real)

  /**
   * The save dialog is offered only when there is at least one asset or
   * liability; what it saves has the net worth as assets minus liabilities.
   */
  function SaveOffer(assets: seq<Asset>, liabilities: seq<Liability>): (r: Option<SavedResult>)
    ensures r.Some? <==> |assets| > 0 || |liabilities| > 0
    ensures r.Some? ==> r.value.netWorth == r.value.totalAssets - r.value.totalLiabilities
  {
    if |assets| > 0 || |liabilities| > 0 then
      var a, l := TotalAssets(assets), TotalLiabilities(liabilities);
      Some(SavedResult(a, l, a - l))
    else None
  }

  /** The saved net worth is the asset breakdown minus the liability breakdown. */
  lemma SavedMatchesBreakdown(assets: seq<Asset>, liabilities: seq<Liability>)
    requires |assets| > 0 || |liabilities| > 0
    ensures SaveOffer(assets, liabilities).value.netWorth ==
      Sum(AssetsByCategory(assets), RowAmount) - Sum(LiabilitiesByCategory(liabilities), RowAmount)
  {
    AssetBreakdownTotal(assets);
    LiabilityBreakdownTotal(liabilities);
  }
}
