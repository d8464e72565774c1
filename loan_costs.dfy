/**
 * The cost figures the loan components compute from a monthly payment and
 * a term (refinance-analysis, payoff-calculator and loan-comparison under
 * src/components/loans/): the total paid and its interest part.
 */
module LoanCosts {

  /** A monthly payment with the total paid over the term and the interest part of it. */
  datatype Totals = Totals(payment: real, totalCost: real, totalInterest: real)

  /** `payment * months` as the total cost, and the total cost less the amount as the interest. */
  function TotalsOf(payment: real, months: int, amount: real): (t: Totals)
    ensures t.payment == payment && t.totalInterest == t.totalCost - amount
  {
    var cost := payment * months as real;
    Totals(payment, cost, cost - amount)
  }
}
