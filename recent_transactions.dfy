/**
 * The recent transactions card (src/components/dashboard/recent-transactions.tsx):
 * the first five transactions, each with its category (the first with a
 * matching id), a `+` and an up arrow for income, a `-` and a down arrow
 * otherwise.
 */
module RecentTransactions {
  import opened Wrappers
  import opened Types
  import opened Sums
  import opened Lists
  import opened Ledger

  datatype Line = Line(transaction: Transaction, category: Option<TransactionCategory>, sign: char, up: bool)

  /** One line: `category?.type === 'income'` picks the sign and the arrow. */
  function LineFor(categories: seq<TransactionCategory>, t: Transaction): (line: Line)
    ensures line.transaction == t && line.category == CategoryOf(categories, t)
    ensures line.sign == '+' || line.sign == '-'
    ensures line.sign == '+' <==> OfKind(categories, Income)(t)
    ensures line.up <==> line.sign == '+'
  {
    var income := CategoryOf(categories, t).Some? && CategoryOf(categories, t).value.kind == Income;
    Line(t, CategoryOf(categories, t), if income then '+' else '-', income)
  }

  function Lines(categories: seq<TransactionCategory>, transactions: seq<Transaction>): (lines: seq<Line>)
    ensures |lines| == |transactions|
    ensures forall i :: 0 <= i < |transactions| ==> lines[i] == LineFor(categories, transactions[i])
  {
    if |transactions| == 0 then []
    else [LineFor(categories, transactions[0])] + Lines(categories, transactions[1..])
  }

  /** `transactions.slice(0, 5).map(...)`. */
  function Recent(transactions: seq<Transaction>, categories: seq<TransactionCategory>): (lines: seq<Line>)
    ensures |lines| <= 5 && |lines| <= |transactions|
    ensures |transactions| >= 5 ==> |lines| == 5
    ensures forall i :: 0 <= i < |lines| ==> lines[i].transaction == transactions[i]
  {
    Lines(categories, Take(transactions, 5))
  }

  predicate IsCredit(line: Line) { line.sign == '+' }

  function LineAmount(line: Line): real { line.transaction.amount }

  lemma {:induction false} CreditsAreIncome(categories: seq<TransactionCategory>, transactions: seq<Transaction>)
    ensures Sum(Filter(Lines(categories, transactions), IsCredit), LineAmount) == KindTotal(transactions, categories, Income)
  {
    if |transactions| > 0 {
      var lines := Lines(categories, transactions);
      CreditsAreIncome(categories, transactions[1..]);
      assert lines[1..] == Lines(categories, transactions[1..]);
      SumFilterCons(lines, IsCredit, LineAmount);
      SumFilterCons(transactions, OfKind(categories, Income), TxAmount);
    }
  }

  /**
   * The amounts shown with a `+` are exactly the income among the five
   * transactions shown: they add up to that income total.
   */
  lemma RecentCredits(transactions: seq<Transaction>, categories: seq<TransactionCategory>)
    ensures Sum(Filter(Recent(transactions, categories), IsCredit), LineAmount) ==
      KindTotal(Take(transactions, 5), categories, Income)
  {
    CreditsAreIncome(categories, Take(transactions, 5));
  }
}
