/**
 * The budget insights card (src/components/budget/budget-insights.tsx):
 * the month's expense spending per category, a danger or warning insight
 * for each spent category whose budget is nearly or fully used, then a
 * success insight for each budget with nothing spent.
 */
module BudgetInsights {
  import opened Wrappers
  import opened Types
  import opened Sums
  import opened Lists
  import opened Grouping
  import opened Ledger
  import opened BudgetHook

  /**
   * One insight. `percentUsed` of a danger insight is absent when the
   * budget is 0 and the percentage is Infinity in JavaScript.
   */
  datatype Insight =
    | Danger(category: TransactionCategory, percentUsed: Option<real>, spent: real, budgeted: real)
    | Warning(category: TransactionCategory, share: real)
    | Success(category: TransactionCategory)

  function CategoryIdOf(t: Transaction): string { t.categoryId }

  /** `spendingByCategory`: expense transactions only, totalled per category id in order of first use. */
  function Spending(transactions: seq<Transaction>, categories: seq<TransactionCategory>): seq<(string, real)>
  {
    GroupBy(Filter(transactions, OfKind(categories, Expense)), CategoryIdOf, TxAmount)
  }

  /** `(amount / budget.amount) * 100`. */
  function PercentUsed(spent: real, budgeted: real): real
    requires budgeted != 0.0
  {
    spent / budgeted * 100.0
  }

  /**
   * The insight for a spent category with a budget: danger from 90% on,
   * warning from 75% on, none below. With a zero budget the percentage is
   * +Infinity for positive spending (danger) and -Infinity or NaN
   * otherwise (no insight).
   */
  function AlertFor(category: TransactionCategory, spent: real, budgeted: real): (r: Option<Insight>)
    ensures budgeted == 0.0 ==> r == if spent > 0.0 then Some(Danger(category, None, spent, budgeted)) else None
    ensures budgeted != 0.0 && PercentUsed(spent, budgeted) >= 90.0 ==>
      r == Some(Danger(category, Some(PercentUsed(spent, budgeted)), spent, budgeted))
    ensures budgeted != 0.0 && 75.0 <= PercentUsed(spent, budgeted) < 90.0 ==>
      r == Some(Warning(category, PercentUsed(spent, budgeted)))
    ensures budgeted != 0.0 && PercentUsed(spent, budgeted) < 75.0 ==> r.None?
  {
    if budgeted == 0.0 then
      if spent > 0.0 then Some(Danger(category, None, spent, budgeted)) else None
    else
      var p := PercentUsed(spent, budgeted);
      if p >= 90.0 then Some(Danger(category, Some(p), spent, budgeted))
      else if p >= 75.0 then Some(Warning(category, p))
      else None
  }

  /** For a positive budget the thresholds are 90% and 75% of the budgeted amount. */
  lemma Thresholds(category: TransactionCategory, spent: real, budgeted: real)
    requires budgeted > 0.0
    ensures AlertFor(category, spent, budgeted).Some? && AlertFor(category, spent, budgeted).value.Danger?
      <==> spent >= 0.9 * budgeted
    ensures AlertFor(category, spent, budgeted).Some? && AlertFor(category, spent, budgeted).value.Warning?
      <==> 0.75 * budgeted <= spent < 0.9 * budgeted
    ensures AlertFor(category, spent, budgeted).None? <==> spent < 0.75 * budgeted
  {
    var p := PercentUsed(spent, budgeted);
    ScaledBound(spent, budgeted, p, 90.0);
    ScaledBound(spent, budgeted, p, 75.0);
  }

  lemma ScaledBound(spent: real, budgeted: real, p: real, bound: real)
    requires budgeted > 0.0 && p == spent / budgeted * 100.0
    ensures p >= bound <==> spent >= bound / 100.0 * budgeted
  {
    assert p * budgeted == spent * 100.0;
    if p >= bound {
      assert p * budgeted >= bound * budgeted;
    } else {
      assert p * budgeted < bound * budgeted;
    }
  }

  /** The first `forEach` callback: the insight, if any, for one `[categoryId, amount]` entry of the spending. */
  function EntryAlert(entry: (string, real), categories: seq<TransactionCategory>, budgets: seq<Budget>): (r: seq<Insight>)
    ensures |r| <= 1
    ensures forall x :: x in r ==> !x.Success? && x.category.id == entry.0 && Find(budgets, ForCategory(entry.0)).Some?
  {
    match (Find(categories, CategoryIdIs(entry.0)), Find(budgets, ForCategory(entry.0)))
    case (Some(category), Some(budget)) =>
      (match AlertFor(category, entry.1, budget.amount)
       case Some(insight) => [insight]
       case None => [])
    case _ => []
  }

  /** The first `forEach`: the alerts, in the order of the spending entries. */
  function Alerts(entries: seq<(string, real)>, categories: seq<TransactionCategory>, budgets: seq<Budget>): (r: seq<Insight>)
    ensures |r| <= |entries|
    ensures forall x :: x in r ==> !x.Success?
  {
    if |entries| == 0 then []
    else Alerts(entries[..|entries| - 1], categories, budgets) + EntryAlert(entries[|entries| - 1], categories, budgets)
  }

  /** The second `forEach` callback: the success insight, if any, for one budget: its category exists and nothing was spent in it. */
  function BudgetSuccess(budget: Budget, categories: seq<TransactionCategory>, spending: seq<(string, real)>): (r: seq<Insight>)
    ensures r != [] ==> Find(categories, CategoryIdIs(budget.category)).Some?
    ensures r != [] ==> r == [Success(Find(categories, CategoryIdIs(budget.category)).value)] && Lookup(spending, budget.category) == 0.0
  {
    match Find(categories, CategoryIdIs(budget.category))
    case Some(category) => if Lookup(spending, category.id) == 0.0 then [Success(category)] else []
    case None => []
  }

  /** The second `forEach`: the successes, in the order of the budgets. */
  function Successes(budgets: seq<Budget>, categories: seq<TransactionCategory>, spending: seq<(string, real)>): (r: seq<Insight>)
    ensures |r| <= |budgets|
    ensures forall x :: x in r ==> x.Success?
  {
    if |budgets| == 0 then []
    else Successes(budgets[..|budgets| - 1], categories, spending) + BudgetSuccess(budgets[|budgets| - 1], categories, spending)
  }

  /** The insights the card lists, or nothing rendered when the list is empty. */
  function InsightsOf(transactions: seq<Transaction>, categories: seq<TransactionCategory>, budgets: seq<Budget>): seq<Insight>
  {
    var spending := Spending(transactions, categories);
    Alerts(spending, categories, budgets) + Successes(budgets, categories, spending)
  }

  /** The `reduce` callback: an expense transaction adds its amount to its category's total. */
  function Record(acc: seq<(string, real)>, categories: seq<TransactionCategory>, t: Transaction): seq<(string, real)>
  {
    match Find(categories, CategoryIdIs(t.categoryId))
    case Some(category) => if category.kind == Expense then AddTo(acc, category.id, t.amount) else acc
    case None => acc
  }

  /** The `reduce` into `spendingByCategory`, one callback per transaction. */
  method SpendingLoop(transactions: seq<Transaction>, categories: seq<TransactionCategory>) returns (acc: seq<(string, real)>)
    ensures acc == Spending(transactions, categories)
  {
    acc := [];
    var i := 0;
    while i < |transactions|
      invariant 0 <= i <= |transactions|
      invariant acc == Spending(transactions[..i], categories)
    {
      SpendingStep(transactions, i, categories);
      acc := Record(acc, categories, transactions[i]);
      i := i + 1;
    }
    assert transactions[..|transactions|] == transactions;
  }

  lemma SpendingStep(transactions: seq<Transaction>, i: nat, categories: seq<TransactionCategory>)
    requires i < |transactions|
    ensures Spending(transactions[..i + 1], categories) == Record(Spending(transactions[..i], categories), categories, transactions[i])
  {
    var t := transactions[i];
    var kept := Filter(transactions[..i], OfKind(categories, Expense));
    assert transactions[..i + 1] == transactions[..i] + [t];
    FilterAppend(transactions[..i], [t], OfKind(categories, Expense));
    if OfKind(categories, Expense)(t) {
      assert (kept + [t])[..|kept|] == kept;
    } else {
      assert kept + [] == kept;
    }
  }

  /** The first `forEach`, pushing each entry's alert onto `insights`. */
  method AlertsLoop(spending: seq<(string, real)>, categories: seq<TransactionCategory>, budgets: seq<Budget>)
    returns (insights: seq<Insight>)
    ensures insights == Alerts(spending, categories, budgets)
  {
    insights := [];
    var j := 0;
    while j < |spending|
      invariant 0 <= j <= |spending|
      invariant insights == Alerts(spending[..j], categories, budgets)
    {
      AlertsStep(spending, j, categories, budgets);
      insights := insights + EntryAlert(spending[j], categories, budgets);
      j := j + 1;
    }
    assert spending[..|spending|] == spending;
  }

  lemma AlertsStep(spending: seq<(string, real)>, j: nat, categories: seq<TransactionCategory>, budgets: seq<Budget>)
    requires j < |spending|
    ensures Alerts(spending[..j + 1], categories, budgets) == Alerts(spending[..j], categories, budgets) + EntryAlert(spending[j], categories, budgets)
  {
    assert spending[..j + 1][..j] == spending[..j];
  }

  /** The second `forEach`, pushing the successes after what is already in `insights`. */
  method SuccessesLoop(insights0: seq<Insight>, budgets: seq<Budget>, categories: seq<TransactionCategory>,
                       spending: seq<(string, real)>) returns (insights: seq<Insight>)
    ensures insights == insights0 + Successes(budgets, categories, spending)
  {
    insights := insights0;
    var k := 0;
    while k < |budgets|
      invariant 0 <= k <= |budgets|
      invariant insights == insights0 + Successes(budgets[..k], categories, spending)
    {
      SuccessesStep(budgets, k, categories, spending);
      insights := insights + BudgetSuccess(budgets[k], categories, spending);
      k := k + 1;
    }
    assert budgets[..|budgets|] == budgets;
  }

  lemma SuccessesStep(budgets: seq<Budget>, k: nat, categories: seq<TransactionCategory>, spending: seq<(string, real)>)
    requires k < |budgets|
    ensures Successes(budgets[..k + 1], categories, spending) == Successes(budgets[..k], categories, spending) + BudgetSuccess(budgets[k], categories, spending)
  {
    assert budgets[..k + 1][..k] == budgets[..k];
  }

  /** The component's three passes, one after the other. */
  method Insights(transactions: seq<Transaction>, categories: seq<TransactionCategory>, budgets: seq<Budget>)
    returns (insights: seq<Insight>)
    ensures insights == InsightsOf(transactions, categories, budgets)
  {
    var spending := SpendingLoop(transactions, categories);
    insights := AlertsLoop(spending, categories, budgets);
    insights := SuccessesLoop(insights, budgets, categories, spending);
  }

  /** Every danger or warning insight comes before every success insight. */
  lemma AlertsBeforeSuccesses(transactions: seq<Transaction>, categories: seq<TransactionCategory>, budgets: seq<Budget>)
    ensures var r := InsightsOf(transactions, categories, budgets);
      forall i, j :: 0 <= i < j < |r| && r[i].Success? ==> r[j].Success?
  {
    var spending := Spending(transactions, categories);
    var alerts := Alerts(spending, categories, budgets);
    var successes := Successes(budgets, categories, spending);
    assert InsightsOf(transactions, categories, budgets) == alerts + successes;
    SuccessesAfterAlerts(alerts, successes);
  }

  lemma SuccessesAfterAlerts(alerts: seq<Insight>, successes: seq<Insight>)
    requires forall x :: x in alerts ==> !x.Success?
    requires forall x :: x in successes ==> x.Success?
    ensures forall i, j :: 0 <= i < j < |alerts + successes| && (alerts + successes)[i].Success? ==> (alerts + successes)[j].Success?
  {
    var r := alerts + successes;
    forall k | 0 <= k < |r|
      ensures r[k].Success? <==> k >= |alerts|
    {
      if k < |alerts| {
        assert r[k] == alerts[k] && alerts[k] in alerts;
      } else {
        assert r[k] == successes[k - |alerts|] && successes[k - |alerts|] in successes;
      }
    }
  }

  /** Spending is keyed only by ids whose category (the first with the id) is an expense category. */
  lemma SpendingKeys(transactions: seq<Transaction>, categories: seq<TransactionCategory>)
    ensures forall k :: k in KeysOf(Spending(transactions, categories)) ==>
      Find(categories, CategoryIdIs(k)).Some? && Find(categories, CategoryIdIs(k)).value.kind == Expense
  {
    var expenses := Filter(transactions, OfKind(categories, Expense));
    GroupByKeys(expenses, CategoryIdOf, TxAmount);
    forall k | k in KeysOf(Spending(transactions, categories))
      ensures Find(categories, CategoryIdIs(k)).Some? && Find(categories, CategoryIdIs(k)).value.kind == Expense
    {
      var t :| t in expenses && CategoryIdOf(t) == k;
      assert OfKind(categories, Expense)(t);
    }
  }

  /** Nothing is ever spent in a category whose type is income. */
  lemma IncomeUnspent(transactions: seq<Transaction>, categories: seq<TransactionCategory>, id: string)
    requires Find(categories, CategoryIdIs(id)).Some? && Find(categories, CategoryIdIs(id)).value.kind == Income
    ensures Lookup(Spending(transactions, categories), id) == 0.0
  {
    var expenses := Filter(transactions, OfKind(categories, Expense));
    GroupByLookup(expenses, CategoryIdOf, TxAmount, id);
    forall t | t in expenses
      ensures !KeyIs(CategoryIdOf, id)(t)
    {
      ExpenseNotIncome(categories, t, id);
    }
    FilterNone(expenses, KeyIs(CategoryIdOf, id));
  }

  lemma ExpenseNotIncome(categories: seq<TransactionCategory>, t: Transaction, id: string)
    requires OfKind(categories, Expense)(t)
    requires Find(categories, CategoryIdIs(id)).Some? && Find(categories, CategoryIdIs(id)).value.kind == Income
    ensures !KeyIs(CategoryIdOf, id)(t)
  {
    assert CategoryIdOf(t) != id;
  }

  /** A budget is praised when its category exists and nothing was spent in it. */
  lemma {:induction false} SuccessListed(budgets: seq<Budget>, categories: seq<TransactionCategory>,
                                         spending: seq<(string, real)>, i: nat)
    requires i < |budgets| && Find(categories, CategoryIdIs(budgets[i].category)).Some?
    requires Lookup(spending, budgets[i].category) == 0.0
    ensures Success(Find(categories, CategoryIdIs(budgets[i].category)).value) in Successes(budgets, categories, spending)
  {
    var init := budgets[..|budgets| - 1];
    if i < |budgets| - 1 {
      assert init[i] == budgets[i];
      SuccessListed(init, categories, spending, i);
    }
  }

  /** Every budget of an income category is praised: nothing is ever spent in it. */
  lemma IncomeBudgetPraised(transactions: seq<Transaction>, categories: seq<TransactionCategory>, budgets: seq<Budget>, i: nat)
    requires i < |budgets|
    requires Find(categories, CategoryIdIs(budgets[i].category)).Some?
    requires Find(categories, CategoryIdIs(budgets[i].category)).value.kind == Income
    ensures Success(Find(categories, CategoryIdIs(budgets[i].category)).value) in InsightsOf(transactions, categories, budgets)
  {
    var spending := Spending(transactions, categories);
    IncomeUnspent(transactions, categories, budgets[i].category);
    SuccessListed(budgets, categories, spending, i);
  }
}
