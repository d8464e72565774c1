/**
 * The budget hook (src/hooks/use-budget.ts): the month's budgets and
 * transactions and the user's categories, the loading flag, the list
 * transitions after each backend answer, and the income and expense
 * totals. Each operation receives the backend's answers as parameters;
 * the selected month enters as its `yyyy-MM-dd` string.
 */
module BudgetHook {
  import opened Wrappers
  import opened Types
  import opened Sums
  import opened Lists
  import opened Ledger

  /** `b => b.category === categoryId`. */
  function ForCategory(categoryId: string): Budget -> bool
  {
    (b: Budget) => b.category == categoryId
  }

  /** `b => b.id === id`. */
  function BudgetHasId(id: string): Budget -> bool
  {
    (b: Budget) => b.id == id
  }

  /** `t => t.id === id`. */
  function TransactionHasId(id: string): Transaction -> bool
  {
    (t: Transaction) => t.id == id
  }

  /** The write `updateBudget` sends: a new amount for an existing budget, or a new budget row. */
  datatype Request =
    | SetAmount(budgetId: string, amount: real)
    | Insert(category: string, kind: CategoryType, amount: real, month: string)

  /**
   * The request `updateBudget(categoryId, amount)` sends, if any: none
   * without a user or for an unknown category; an amount update for the
   * first budget of the category when there is one; else a new budget
   * with the category's type for the month.
   */
  function RequestFor(signedIn: bool, budgets: seq<Budget>, categories: seq<TransactionCategory>,
                      categoryId: string, amount: real, month: string): (r: Option<Request>)
    ensures r.None? <==> !signedIn || Find(categories, CategoryIdIs(categoryId)).None?
    ensures r.Some? && r.value.SetAmount? ==>
      Find(budgets, ForCategory(categoryId)).Some? && r.value == SetAmount(Find(budgets, ForCategory(categoryId)).value.id, amount)
    ensures r.Some? && r.value.Insert? ==>
      Find(budgets, ForCategory(categoryId)).None? &&
      r.value == Insert(categoryId, Find(categories, CategoryIdIs(categoryId)).value.kind, amount, month)
    ensures r.Some? && Find(budgets, ForCategory(categoryId)).Some? ==> r.value.SetAmount?
  {
    if !signedIn then None
    else match Find(categories, CategoryIdIs(categoryId))
      case None => None
      case Some(category) =>
        match Find(budgets, ForCategory(categoryId))
        case Some(existing) => Some(SetAmount(existing.id, amount))
        case None => Some(Insert(categoryId, category.kind, amount, month))
  }

  class BudgetStore {
    var budgets: seq<Budget>
    var transactions: seq<Transaction>
    var categories: seq<TransactionCategory>
    var loading: bool

    /** The initial state: empty lists, still loading. */
    constructor()
      ensures budgets == [] && transactions == [] && categories == [] && loading
    {
      budgets := [];
      transactions := [];
      categories := [];
      loading := true;
    }

    function TotalIncome(): real
      reads this
    {
      KindTotal(transactions, categories, Income)
    }

    function TotalExpenses(): real
      reads this
    {
      KindTotal(transactions, categories, Expense)
    }

    function NetIncome(): real
      reads this
    {
      TotalIncome() - TotalExpenses()
    }

    /**
     * `fetchData`: without a user nothing happens; otherwise the three
     * lists are replaced together when all three answers are rows and all
     * stay as they were when any is an error, and loading ends either way.
     */
    method Fetch(signedIn: bool, budgetsAnswer: Outcome<seq<Budget>>, transactionsAnswer: Outcome<seq<Transaction>>,
                 categoriesAnswer: Outcome<seq<TransactionCategory>>)
      modifies this
      ensures !signedIn ==> budgets == old(budgets) && transactions == old(transactions) && categories == old(categories) && loading == old(loading)
      ensures signedIn ==> !loading
      ensures signedIn && budgetsAnswer.Ok? && transactionsAnswer.Ok? && categoriesAnswer.Ok? ==>
        budgets == budgetsAnswer.row && transactions == transactionsAnswer.row && categories == categoriesAnswer.row
      ensures signedIn && (budgetsAnswer.Err? || transactionsAnswer.Err? || categoriesAnswer.Err?) ==>
        budgets == old(budgets) && transactions == old(transactions) && categories == old(categories)
    {
      if !signedIn {
        return;
      }
      if budgetsAnswer.Ok? && transactionsAnswer.Ok? && categoriesAnswer.Ok? {
        budgets, transactions, categories := budgetsAnswer.row, transactionsAnswer.row, categoriesAnswer.row;
      }
      loading := false;
    }

    /** `addCategory`: a successful insert with a user is appended and handed back. */
    method AddCategory(signedIn: bool, answer: Outcome<TransactionCategory>) returns (added: Option<TransactionCategory>)
      modifies this
      ensures budgets == old(budgets) && transactions == old(transactions) && loading == old(loading)
      ensures categories == if signedIn && answer.Ok? then old(categories) + [answer.row] else old(categories)
      ensures added == if signedIn && answer.Ok? then Some(answer.row) else None
    {
      added := None;
      if !signedIn {
        return;
      }
      match answer
      case Err(_) =>
      case Ok(row) =>
        categories := categories + [row];
        added := Some(row);
    }

    /**
     * `addTransaction`: a successful insert with a user goes to the front
     * of the list, which is newest first. The income or expense total grows
     * by its amount according to its category's type.
     */
    method AddTransaction(signedIn: bool, answer: Outcome<Transaction>)
      modifies this
      ensures budgets == old(budgets) && categories == old(categories) && loading == old(loading)
      ensures transactions == if signedIn && answer.Ok? then [answer.row] + old(transactions) else old(transactions)
      ensures signedIn && answer.Ok? ==>
        TotalIncome() == old(TotalIncome()) + (if OfKind(categories, Income)(answer.row) then answer.row.amount else 0.0)
      ensures signedIn && answer.Ok? ==>
        TotalExpenses() == old(TotalExpenses()) + (if OfKind(categories, Expense)(answer.row) then answer.row.amount else 0.0)
    {
      if !signedIn {
        return;
      }
      match answer
      case Err(_) =>
      case Ok(row) =>
        var updated := [row] + transactions;
        assert updated[1..] == transactions;
        SumFilterCons(updated, OfKind(categories, Income), TxAmount);
        SumFilterCons(updated, OfKind(categories, Expense), TxAmount);
        transactions := updated;
    }

    /**
     * `updateBudget`: sends `RequestFor(...)`. After a successful amount
     * update the budgets with the returned row's id become that row; after
     * a successful insert the row is appended; otherwise nothing changes.
     */
    method UpdateBudget(signedIn: bool, categoryId: string, amount: real, month: string, answer: Outcome<Budget>)
      returns (request: Option<Request>)
      modifies this
      ensures request == RequestFor(signedIn, old(budgets), old(categories), categoryId, amount, month)
      ensures transactions == old(transactions) && categories == old(categories) && loading == old(loading)
      ensures request.Some? && request.value.SetAmount? && answer.Ok? ==>
        budgets == ReplaceWhere(old(budgets), BudgetHasId(answer.row.id), answer.row)
      ensures request.Some? && request.value.Insert? && answer.Ok? ==> budgets == old(budgets) + [answer.row]
      ensures request.None? || answer.Err? ==> budgets == old(budgets)
    {
      request := RequestFor(signedIn, budgets, categories, categoryId, amount, month);
      if request.None? {
        return;
      }
      match answer
      case Err(_) =>
      case Ok(data) =>
        if request.value.SetAmount? {
          budgets := ReplaceWhere(budgets, BudgetHasId(data.id), data);
        } else {
          budgets := budgets + [data];
        }
    }

    /** `deleteTransaction`: on success exactly the transactions with the id are dropped. */
    method DeleteTransaction(id: string, answer: Outcome<()>)
      modifies this
      ensures budgets == old(budgets) && categories == old(categories) && loading == old(loading)
      ensures transactions == if answer.Ok? then RemoveWhere(old(transactions), TransactionHasId(id)) else old(transactions)
      ensures answer.Ok? ==> forall t :: t in transactions ==> t.id != id
      ensures answer.Ok? ==> forall t :: t in old(transactions) && t.id != id ==> t in transactions
      ensures answer.Ok? ==> forall a, b :: old(transactions) == a + b ==> transactions == RemoveWhere(a, TransactionHasId(id)) + RemoveWhere(b, TransactionHasId(id))
    {
      if answer.Ok? {
        RemoveWhereSplits(transactions, TransactionHasId(id));
        transactions := RemoveWhere(transactions, TransactionHasId(id));
      }
    }
  }

  /**
   * Setting a budget twice for the same category sends one insert and then
   * an update of the inserted row, never a second insert.
   */
  lemma SecondUpdateUpdates(budgets: seq<Budget>, categories: seq<TransactionCategory>, categoryId: string,
                            a1: real, a2: real, month: string, row: Budget)
    requires RequestFor(true, budgets, categories, categoryId, a1, month).Some?
    requires RequestFor(true, budgets, categories, categoryId, a1, month).value.Insert?
    requires row.category == categoryId
    ensures RequestFor(true, budgets + [row], categories, categoryId, a2, month).Some?
    ensures RequestFor(true, budgets + [row], categories, categoryId, a2, month).value.SetAmount?
  {
    var later := budgets + [row];
    assert later[|budgets|] == row;
    assert ForCategory(categoryId)(later[|budgets|]);
  }
}
