/**
 * The dashboard page (src/pages/dashboard.tsx): the invested and loan
 * payment totals, the two example goals built from the net-worth totals,
 * and the month's income and expenses by category type.
 */
module DashboardPage {
  import opened Wrappers
  import opened Types
  import opened Sums
  import opened Holdings
  import opened LoansHook
  import opened Ledger
  import opened FinancialGoals

  /** The two goals: an emergency fund of 10% of the assets towards 10000, and the debt towards 0. */
  function Goals(totalAssets: real, totalLiabilities: real): (goals: seq<Goal>)
    ensures |goals| == 2
    ensures goals[0].name == "Emergency Fund" && goals[0].kind == AssetGoal
    ensures goals[0].currentAmount * 10.0 == totalAssets && goals[0].targetAmount == 10000.0
    ensures goals[1].name == "Debt Reduction" && goals[1].kind == LiabilityGoal
    ensures goals[1].currentAmount == totalLiabilities && goals[1].targetAmount == 0.0
  {
    [Goal("Emergency Fund", totalAssets * 0.1, 10000.0, AssetGoal),
     Goal("Debt Reduction", totalLiabilities, 0.0, LiabilityGoal)]
  }

  /** The figures the page shows besides the hooks' own totals. */
  datatype Summary = Summary(
    totalInvested: real, totalMonthlyPayments: real, goals: seq<Goal>,
    income: real, expenses: real, loanPayments: real)

  function SummaryOf(totalAssets: real, totalLiabilities: real, transactions: seq<Transaction>,
                     categories: seq<TransactionCategory>, loans: seq<Loan>, investments: seq<Investment>): (d: Summary)
    ensures d.totalInvested == TotalInvested(investments)
    ensures d.totalMonthlyPayments == Sum(loans, Monthly) && d.loanPayments == d.totalMonthlyPayments
    ensures d.goals == Goals(totalAssets, totalLiabilities)
    ensures d.income == KindTotal(transactions, categories, Income)
    ensures d.expenses == KindTotal(transactions, categories, Expense)
  {
    var payments := Sum(loans, Monthly);
    Summary(
      Sum(investments, Value), payments, Goals(totalAssets, totalLiabilities),
      Sum(Filter(transactions, OfKind(categories, Income)), TxAmount),
      Sum(Filter(transactions, OfKind(categories, Expense)), TxAmount),
      payments)
  }

  /**
   * Income and expenses never count a transaction twice: with the
   * uncategorised transactions they add up to all the month's transactions.
   */
  lemma IncomeExpensesPartition(totalAssets: real, totalLiabilities: real, transactions: seq<Transaction>,
                                categories: seq<TransactionCategory>, loans: seq<Loan>, investments: seq<Investment>)
    ensures var d := SummaryOf(totalAssets, totalLiabilities, transactions, categories, loans, investments);
      d.income + d.expenses + Sum(Filter(transactions, Uncategorised(categories)), TxAmount) == Sum(transactions, TxAmount)
  {
    Partition(transactions, categories);
  }

  /**
   * The emergency fund's bar shows a thousandth of the assets and is full
   * exactly when the assets reach 100000; the debt goal's target of 0
   * leaves it without a progress value.
   */
  lemma GoalProgress(totalAssets: real, totalLiabilities: real)
    ensures var goals := Goals(totalAssets, totalLiabilities);
      && Progress(goals[0]).value * 1000.0 == totalAssets
      && (Progress(goals[0]).value >= 100.0 <==> totalAssets >= 100000.0)
      && Progress(goals[1]).None?
  {
    var goals := Goals(totalAssets, totalLiabilities);
    ProgressMeaning(goals[0]);
  }
}
