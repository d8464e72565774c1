/**
 * The loan cost comparison (src/components/loans/loan-comparison.tsx):
 * the loans ranked by total cost, each with its interest and the ratio
 * that sizes the principal and interest bars.
 */
module LoanComparison {
  import opened Wrappers
  import opened Types
  import opened Sorting
  import opened LoanCosts

  /** The comparator's key: the stored monthly payment times the term. */
  function CostKey(loan: Loan): real
  {
    loan.monthlyPayment * loan.termMonths as real
  }

  /**
   * The loans in displayed order: a sorted copy, so the caller's list
   * keeps its own order (the model works on values).
   */
  function Ranked(loans: seq<Loan>): (r: seq<Loan>)
    ensures multiset(r) == multiset(loans) && |r| == |loans|
  {
    SortBy(loans, CostKey)
  }

  /** The displayed order is by non-decreasing total cost. */
  lemma RankedByCost(loans: seq<Loan>)
    ensures forall i, j :: 0 <= i < j < |Ranked(loans)| ==> CostKey(Ranked(loans)[i]) <= CostKey(Ranked(loans)[j])
  {
    SortBySorted(loans, CostKey);
  }

  /** Loans of equal total cost are shown in the order they were given. */
  lemma RankedStable(loans: seq<Loan>, cost: real)
    ensures WithKey(Ranked(loans), CostKey, cost) == WithKey(loans, CostKey, cost)
  {
    SortByStable(loans, CostKey, cost);
  }

  /** One comparison row. */
  datatype Row = Row(loan: Loan, totalCost: real, totalInterest: real, interestRatio: Option<real>)

  /**
   * The figures of one loan: `(totalInterest / amount) * 100` has no value
   * for a zero amount (NaN or Infinity in JavaScript), so the ratio is absent then.
   */
  function RowFor(loan: Loan): (row: Row)
    ensures row.loan == loan
    ensures row.totalCost == TotalsOf(loan.monthlyPayment, loan.termMonths, loan.amount).totalCost
    ensures row.totalInterest == row.totalCost - loan.amount
    ensures row.interestRatio.Some? <==> loan.amount != 0.0
    ensures row.interestRatio.Some? ==> row.interestRatio.value * loan.amount == row.totalInterest * 100.0
  {
    var cost := CostKey(loan);
    var interest := cost - loan.amount;
    Row(loan, cost, interest, if loan.amount == 0.0 then None else Some(interest / loan.amount * 100.0))
  }

  /** The widths of the principal bar and the interest bar, in percent. */
  function Widths(interestRatio: real): (w: (real, real))
    ensures w.0 + w.1 == 100.0
    ensures w.1 == interestRatio
  {
    (100.0 - interestRatio, interestRatio)
  }

  /**
   * For a positive amount both bars have a width between 0 and 100 exactly
   * when the total cost lies between the amount and twice the amount.
   */
  lemma WidthsInRange(loan: Loan)
    requires loan.amount > 0.0
    ensures var w := Widths(RowFor(loan).interestRatio.value);
      (0.0 <= w.0 <= 100.0 && 0.0 <= w.1 <= 100.0) <==>
      (loan.amount <= RowFor(loan).totalCost <= 2.0 * loan.amount)
  {
    var row := RowFor(loan);
    RatioRange(row.interestRatio.value, loan.amount, row.totalInterest);
  }

  lemma RatioRange(q: real, a: real, i: real)
    requires a > 0.0 && q * a == i * 100.0
    ensures (0.0 <= q <= 100.0) <==> (0.0 <= i <= a)
  {
    if 0.0 <= q <= 100.0 {
      assert q * a <= 100.0 * a;
    }
    if 0.0 <= i <= a {
      NonNegativeFactor(q, a);
      NonNegativeFactor(100.0 - q, a);
    }
  }

  lemma NonNegativeFactor(q: real, a: real)
    requires a > 0.0 && q * a >= 0.0
    ensures q >= 0.0
  {
  }

  /**
   * What the component renders: nothing for an empty list, else one row
   * per loan in ranked order.
   */
  function View(loans: seq<Loan>): (v: Option<seq<Row>>)
    ensures v.None? <==> |loans| == 0
    ensures v.Some? ==> |v.value| == |loans|
    ensures v.Some? ==> forall i :: 0 <= i < |loans| ==> v.value[i] == RowFor(Ranked(loans)[i])
  {
    if |loans| == 0 then None
    else Some(seq(|loans|, i requires 0 <= i < |loans| => RowFor(Ranked(loans)[i])))
  }

  /** The rows show every loan once and their total costs do not decrease down the list. */
  lemma ViewRanked(loans: seq<Loan>)
    requires |loans| > 0
    ensures multiset(seq(|loans|, i requires 0 <= i < |loans| => View(loans).value[i].loan)) == multiset(loans)
    ensures forall i, j :: 0 <= i < j < |loans| ==> View(loans).value[i].totalCost <= View(loans).value[j].totalCost
  {
    var rows := View(loans).value;
    var shown := seq(|loans|, i requires 0 <= i < |loans| => rows[i].loan);
    assert shown == Ranked(loans);
    RankedByCost(loans);
  }
}
