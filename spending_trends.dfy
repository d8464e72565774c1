/**
 * The spending-by-category chart (src/components/budget/spending-trends.tsx):
 * one bar per expense category, in category order, holding the total of
 * the transactions filed under that category's id.
 */
module SpendingTrends {
  import opened Wrappers
  import opened Types
  import opened Sums
  import opened Lists
  import opened Ledger

  datatype Entry = Entry(name: string, amount: real)

  function EntryAmount(e: Entry): real { e.amount }

  /** `c => c.type === 'expense'`. */
  function IsExpenseCategory(c: TransactionCategory): bool { c.kind == Expense }

  /** `t => t.category_id === id`. */
  function FiledUnder(id: string): Transaction -> bool
  {
    (t: Transaction) => t.categoryId == id
  }

  /** One bar: the category's name and the sum of the transactions filed under its id. */
  function EntryFor(transactions: seq<Transaction>, category: TransactionCategory): (e: Entry)
    ensures e.name == category.name
    ensures e.amount == Sum(Filter(transactions, FiledUnder(category.id)), TxAmount)
  {
    Entry(category.name, Sum(Filter(transactions, FiledUnder(category.id)), TxAmount))
  }

  /** `expenseCategories.map(...)`: one entry per category, in order. */
  function Entries(transactions: seq<Transaction>, categories: seq<TransactionCategory>): (r: seq<Entry>)
    ensures |r| == |categories|
    ensures forall i :: 0 <= i < |r| ==> r[i] == EntryFor(transactions, categories[i])
  {
    if |categories| == 0 then [] else [EntryFor(transactions, categories[0])] + Entries(transactions, categories[1..])
  }

  /** The chart's data; `None` when there is no expense category and nothing is rendered. */
  function Trends(transactions: seq<Transaction>, categories: seq<TransactionCategory>): (r: Option<seq<Entry>>)
    ensures r.None? <==> forall c :: c in categories ==> c.kind != Expense
    ensures r.Some? ==> r.value == Entries(transactions, Filter(categories, IsExpenseCategory))
  {
    var expenses := Filter(categories, IsExpenseCategory);
    FilterKeeps(categories, IsExpenseCategory);
    if |expenses| == 0 then None
    else
      assert expenses[0] in expenses;
      Some(Entries(transactions, expenses))
  }

  predicate DistinctIds(categories: seq<TransactionCategory>)
  {
    forall i, j :: 0 <= i < j < |categories| ==> categories[i].id != categories[j].id
  }

  /** The ids of the categories, in order. */
  function Ids(categories: seq<TransactionCategory>): (ids: seq<string>)
    ensures |ids| == |categories|
    ensures forall i :: 0 <= i < |ids| ==> ids[i] == categories[i].id
  {
    if |categories| == 0 then [] else [categories[0].id] + Ids(categories[1..])
  }

  /** `t => ids.includes(t.category_id)`. */
  function FiledUnderAny(ids: seq<string>): Transaction -> bool
  {
    (t: Transaction) => t.categoryId in ids
  }

  /** Over categories with distinct ids the bars add up to the transactions filed under any of them. */
  lemma {:induction false} EntriesSum(transactions: seq<Transaction>, categories: seq<TransactionCategory>)
    requires DistinctIds(categories)
    ensures Sum(Entries(transactions, categories), EntryAmount) == Sum(Filter(transactions, FiledUnderAny(Ids(categories))), TxAmount)
  {
    if |categories| == 0 {
      FilterNone(transactions, FiledUnderAny(Ids(categories)));
    } else {
      var c, rest := categories[0], categories[1..];
      assert DistinctIds(rest) by {
        forall i, j | 0 <= i < j < |rest|
          ensures rest[i].id != rest[j].id
        {
          assert rest[i] == categories[i + 1] && rest[j] == categories[j + 1];
        }
      }
      EntriesSum(transactions, rest);
      assert c.id !in Ids(rest) by {
        forall k | 0 <= k < |Ids(rest)|
          ensures Ids(rest)[k] != c.id
        {
          assert rest[k] == categories[k + 1];
        }
      }
      SumFilterOr(transactions, FiledUnder(c.id), FiledUnderAny(Ids(rest)), TxAmount);
      assert Ids(categories) == [c.id] + Ids(rest);
      assert Entries(transactions, categories) == [EntryFor(transactions, c)] + Entries(transactions, rest);
      FilterCongruent(transactions, Either(FiledUnder(c.id), FiledUnderAny(Ids(rest))), FiledUnderAny(Ids(categories)));
    }
  }

  /** Filtering keeps ids distinct. */
  lemma {:induction false} FilterDistinct(categories: seq<TransactionCategory>, p: TransactionCategory -> bool)
    requires DistinctIds(categories)
    ensures DistinctIds(Filter(categories, p))
  {
    if |categories| > 0 {
      var rest := categories[1..];
      assert DistinctIds(rest) by {
        forall i, j | 0 <= i < j < |rest|
          ensures rest[i].id != rest[j].id
        {
          assert rest[i] == categories[i + 1] && rest[j] == categories[j + 1];
        }
      }
      FilterDistinct(rest, p);
      var tail := Filter(rest, p);
      forall k | 0 <= k < |tail|
        ensures tail[k].id != categories[0].id
      {
        assert tail[k] in rest;
        var m :| 0 <= m < |rest| && rest[m] == tail[k];
        assert categories[m + 1] == tail[k];
      }
    }
  }

  /**
   * With distinct category ids a transaction is filed under an expense
   * category exactly when its category (the first with its id) is an
   * expense category.
   */
  lemma FiledUnderExpense(transactions: seq<Transaction>, categories: seq<TransactionCategory>, t: Transaction)
    requires DistinctIds(categories)
    ensures FiledUnderAny(Ids(Filter(categories, IsExpenseCategory)))(t) == OfKind(categories, Expense)(t)
  {
    var expenses := Filter(categories, IsExpenseCategory);
    var ids := Ids(expenses);
    if t.categoryId in ids {
      var k :| 0 <= k < |ids| && ids[k] == t.categoryId;
      var e := expenses[k];
      assert e in categories && e.kind == Expense;
      var j :| 0 <= j < |categories| && categories[j] == e;
      var c := CategoryOf(categories, t);
      var i :| 0 <= i < |categories| && categories[i] == c.value;
      assert i == j;
    }
    if OfKind(categories, Expense)(t) {
      var c := CategoryOf(categories, t).value;
      FilterKeeps(categories, IsExpenseCategory);
      assert c in expenses;
      var k :| 0 <= k < |expenses| && expenses[k] == c;
      assert ids[k] == t.categoryId;
    }
  }

  /** With distinct category ids the bars add up to the month's expense total. */
  lemma TrendsTotal(transactions: seq<Transaction>, categories: seq<TransactionCategory>)
    requires DistinctIds(categories)
    requires Trends(transactions, categories).Some?
    ensures Sum(Trends(transactions, categories).value, EntryAmount) == KindTotal(transactions, categories, Expense)
  {
    var expenses := Filter(categories, IsExpenseCategory);
    FilterDistinct(categories, IsExpenseCategory);
    EntriesSum(transactions, expenses);
    forall t | t in transactions
      ensures FiledUnderAny(Ids(expenses))(t) == OfKind(categories, Expense)(t)
    {
      FiledUnderExpense(transactions, categories, t);
    }
    FilterCongruent(transactions, FiledUnderAny(Ids(expenses)), OfKind(categories, Expense));
  }
}
