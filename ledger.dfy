/**
 * How transactions are classified by their category, shared by the budget
 * hook's totals (src/hooks/use-budget.ts), the dashboard's monthly summary
 * (src/pages/dashboard.tsx) and the recent transactions list: a
 * transaction's category is the first category whose id is its
 * `category_id`, and it counts as income or expense by that category's type.
 */
module Ledger {
  import opened Wrappers
  import opened Types
  import opened Sums
  import opened Lists

  /** `c => c.id === id`. */
  function CategoryIdIs(id: string): TransactionCategory -> bool
  {
    (c: TransactionCategory) => c.id == id
  }

  /** No category before index i has the id. */
  predicate NoneBefore(categories: seq<TransactionCategory>, i: int, id: string)
  {
    forall j :: 0 <= j < i && j < |categories| ==> categories[j].id != id
  }

  /** `categories.find((c) => c.id === t.category_id)`. */
  function CategoryOf(categories: seq<TransactionCategory>, t: Transaction): (c: Option<TransactionCategory>)
    ensures c.None? <==> forall j :: 0 <= j < |categories| ==> categories[j].id != t.categoryId
    ensures c.Some? ==> c.value.id == t.categoryId
    ensures c.Some? ==> exists i :: 0 <= i < |categories| && categories[i] == c.value && NoneBefore(categories, i, t.categoryId)
  {
    Find(categories, CategoryIdIs(t.categoryId))
  }

  /** `category?.type === kind`: a transaction without a category has no type. */
  function OfKind(categories: seq<TransactionCategory>, kind: CategoryType): Transaction -> bool
  {
    (t: Transaction) => CategoryOf(categories, t).Some? && CategoryOf(categories, t).value.kind == kind
  }

  function Uncategorised(categories: seq<TransactionCategory>): Transaction -> bool
  {
    (t: Transaction) => CategoryOf(categories, t).None?
  }

  function TxAmount(t: Transaction): real { t.amount }

  /** `transactions.filter(t => category?.type === kind).reduce((sum, t) => sum + t.amount, 0)`. */
  function KindTotal(transactions: seq<Transaction>, categories: seq<TransactionCategory>, kind: CategoryType): real
  {
    Sum(Filter(transactions, OfKind(categories, kind)), TxAmount)
  }

  /**
   * Every transaction counts once: as income, as expense, or, without a
   * category, in neither total.
   */
  lemma {:induction false} Partition(transactions: seq<Transaction>, categories: seq<TransactionCategory>)
    ensures KindTotal(transactions, categories, Income) + KindTotal(transactions, categories, Expense)
      + Sum(Filter(transactions, Uncategorised(categories)), TxAmount) == Sum(transactions, TxAmount)
  {
    if |transactions| > 0 {
      Partition(transactions[1..], categories);
      SumFilterCons(transactions, OfKind(categories, Income), TxAmount);
      SumFilterCons(transactions, OfKind(categories, Expense), TxAmount);
      SumFilterCons(transactions, Uncategorised(categories), TxAmount);
    }
  }

  /** With every transaction categorised, income and expenses add up to all transactions. */
  lemma AllCategorised(transactions: seq<Transaction>, categories: seq<TransactionCategory>)
    requires forall t :: t in transactions ==> exists c :: c in categories && c.id == t.categoryId
    ensures KindTotal(transactions, categories, Income) + KindTotal(transactions, categories, Expense) == Sum(transactions, TxAmount)
  {
    Partition(transactions, categories);
    forall t | t in transactions
      ensures !Uncategorised(categories)(t)
    {
      var c :| c in categories && c.id == t.categoryId;
      var i :| 0 <= i < |categories| && categories[i] == c;
    }
    FilterNone(transactions, Uncategorised(categories));
  }
}
