/**
 * The refinance analysis of one loan
 * (src/components/loans/refinance-analysis.tsx): the current figures from
 * the stored monthly payment, the new payment from the annuity formula at
 * the new rate, the savings and the break-even month.
 */
module Refinance {
  import opened Wrappers
  import opened Annuity
  import opened Amortization
  import opened Types
  import opened Rounding
  import opened LoanCosts

  /** The two form inputs: the new annual rate in percent and the closing costs. */
  datatype Inputs = Inputs(newRate: real, closingCosts: real)

  /** Everything the summary shows. */
  datatype Analysis = Analysis(
    current: Totals, proposed: Totals,
    monthlySavings: real, totalSavings: real, interestSavings: real,
    breakEvenMonths: Option<int>)

  /** The summary block is rendered only for a lower rate than the loan's. */
  predicate Shown(loan: Loan, input: Inputs)
  {
    input.newRate < loan.interestRate
  }

  /** The initial form state: one point below the loan's rate and $2000 of closing costs. */
  function Defaults(loan: Loan): (input: Inputs)
    ensures Shown(loan, input)
    ensures input.closingCosts == 2000.0 && loan.interestRate - input.newRate == 1.0
  {
    Inputs(loan.interestRate - 1.0, 2000.0)
  }

  /** The current figures: the stored monthly payment, not a recomputed one. */
  function CurrentTotals(loan: Loan): (t: Totals)
    ensures t.payment == loan.monthlyPayment
  {
    TotalsOf(loan.monthlyPayment, loan.termMonths, loan.amount)
  }

  /**
   * The new figures: the annuity formula at the new rate over the same
   * amount and term, for any rate the form holds. Where the formula
   * divides by zero the source shows NaN and there are no figures here:
   * above -100% a month that is exactly the zero rate.
   */
  function NewTotals(loan: Loan, input: Inputs): (t: Option<Totals>)
    requires loan.termMonths >= 1
    ensures var r, n := MonthlyRate(input.newRate), loan.termMonths;
      t.Some? <==> Pow(1.0 + r, n) != 1.0
    ensures var r, n := MonthlyRate(input.newRate), loan.termMonths;
      t.Some? ==> t.value.payment * (Pow(1.0 + r, n) - 1.0) == loan.amount * r * Pow(1.0 + r, n)
    ensures t.Some? ==> t.value.totalInterest == t.value.totalCost - loan.amount
    ensures MonthlyRate(input.newRate) > -1.0 ==> (t.Some? <==> input.newRate != 0.0)
    ensures MonthlyRate(input.newRate) > -1.0 && t.Some? ==>
      t.value.payment == Payment(loan.amount, MonthlyRate(input.newRate), loan.termMonths)
  {
    var r := MonthlyRate(input.newRate);
    PowIsOne(r, loan.termMonths);
    if Pow(1.0 + r, loan.termMonths) == 1.0 then None
    else Some(TotalsOf(Formula(loan.amount, r, loan.termMonths), loan.termMonths, loan.amount))
  }

  /**
   * `Math.ceil(closingCosts / monthlySavings)`. A zero saving divides by
   * zero (Infinity or NaN in JavaScript) and gives no month here.
   */
  function BreakEven(closingCosts: real, monthlySavings: real): (months: Option<int>)
    ensures months.Some? <==> monthlySavings != 0.0
  {
    if monthlySavings == 0.0 then None else Some(Ceil(closingCosts / monthlySavings))
  }

  /**
   * For a positive saving the break-even month is the first month whose
   * accumulated savings cover the closing costs.
   */
  lemma BreakEvenCovers(closingCosts: real, monthlySavings: real)
    requires monthlySavings > 0.0
    ensures var k := BreakEven(closingCosts, monthlySavings).value;
      && k as real * monthlySavings >= closingCosts
      && (k - 1) as real * monthlySavings < closingCosts
  {
    CoverBounds(Ceil(closingCosts / monthlySavings), closingCosts, monthlySavings);
  }

  /**
   * The analysis for `loan` and the form's inputs: the savings compare the
   * current and the new figures, and the interest saved equals the cost
   * saved because the loan amount cancels.
   */
  function Analyse(loan: Loan, input: Inputs): (a: Option<Analysis>)
    requires loan.termMonths >= 1
    ensures a.Some? <==> NewTotals(loan, input).Some?
    ensures a.Some? ==> a.value.current == CurrentTotals(loan) && a.value.proposed == NewTotals(loan, input).value
    ensures a.Some? ==> a.value.monthlySavings == a.value.current.payment - a.value.proposed.payment
    ensures a.Some? ==> a.value.interestSavings == a.value.current.totalCost - a.value.proposed.totalCost
    ensures a.Some? ==> a.value.totalSavings == a.value.interestSavings - input.closingCosts
    ensures a.Some? ==> a.value.breakEvenMonths == BreakEven(input.closingCosts, a.value.monthlySavings)
  {
    match NewTotals(loan, input)
    case None => None
    case Some(proposed) =>
      var current := CurrentTotals(loan);
      var monthlySavings := current.payment - proposed.payment;
      Some(Analysis(
        current, proposed, monthlySavings,
        current.totalCost - proposed.totalCost - input.closingCosts,
        current.totalInterest - proposed.totalInterest,
        BreakEven(input.closingCosts, monthlySavings)))
  }

  /**
   * The form's first state has figures for every loan rate above -1199%
   * except exactly 1%, where the new rate is zero; in particular for the
   * loans below 1%, whose first new rate is negative.
   */
  lemma DefaultsAnalysed(loan: Loan)
    requires loan.termMonths >= 1 && loan.interestRate > -1199.0
    ensures Analyse(loan, Defaults(loan)).Some? <==> loan.interestRate != 1.0
  {
  }

  /** The current total cost is n stored payments. */
  lemma CurrentCostIsPayments(loan: Loan)
    requires loan.termMonths >= 0
    ensures CurrentTotals(loan).totalCost == Repeated(loan.monthlyPayment, loan.termMonths)
  {
    RepeatedIsProduct(loan.monthlyPayment, loan.termMonths);
  }

  /** The new payment is the one the amortization calculator shows for the same loan at the new rate. */
  lemma NewPaymentIsSchedule(loan: Loan, input: Inputs)
    requires input.newRate > 0.0 && loan.termMonths >= 1
    ensures NewTotals(loan, input).Some?
    ensures NewTotals(loan, input).value.payment == AmortizationOf(loan.amount, input.newRate, loan.termMonths).monthlyPayment
  {
  }

  /** The new total cost is the amortization calculator's total payment for the same loan at the new rate. */
  lemma NewCostIsSchedule(loan: Loan, input: Inputs)
    requires input.newRate > 0.0 && loan.termMonths >= 1
    ensures NewTotals(loan, input).Some?
    ensures NewTotals(loan, input).value.totalCost == AmortizationOf(loan.amount, input.newRate, loan.termMonths).totalPayment
  {
  }

  /** The new total interest is the one the amortization schedule accumulates for the same loan at the new rate. */
  lemma NewInterestIsSchedule(loan: Loan, input: Inputs)
    requires input.newRate > 0.0 && loan.termMonths >= 1
    ensures NewTotals(loan, input).Some?
    ensures NewTotals(loan, input).value.totalInterest == AmortizationOf(loan.amount, input.newRate, loan.termMonths).totalInterest
  {
    TotalInterestIsRest(loan.amount, input.newRate, loan.termMonths);
    NewCostIsSchedule(loan, input);
  }

  /**
   * When the stored payment is the formula's at the loan's own rate, a
   * lower rate (above -100% a month, and neither rate zero) saves money
   * every month and has a break-even month.
   */
  lemma LowerRateSaves(loan: Loan, input: Inputs)
    requires loan.amount > 0.0 && loan.termMonths >= 1
    requires -1200.0 < input.newRate < loan.interestRate && input.newRate != 0.0 && loan.interestRate != 0.0
    requires loan.monthlyPayment == Payment(loan.amount, MonthlyRate(loan.interestRate), loan.termMonths)
    ensures Analyse(loan, input).Some?
    ensures Analyse(loan, input).value.monthlySavings > 0.0
    ensures Analyse(loan, input).value.breakEvenMonths.Some?
  {
    PaymentIncreasingInRate(loan.amount, MonthlyRate(input.newRate), MonthlyRate(loan.interestRate), loan.termMonths);
  }

  /** Under the same conditions the total interest saved is positive. */
  lemma LowerRateSavesInterest(loan: Loan, input: Inputs)
    requires loan.amount > 0.0 && loan.termMonths >= 1
    requires -1200.0 < input.newRate < loan.interestRate && input.newRate != 0.0 && loan.interestRate != 0.0
    requires loan.monthlyPayment == Payment(loan.amount, MonthlyRate(loan.interestRate), loan.termMonths)
    ensures Analyse(loan, input).Some?
    ensures Analyse(loan, input).value.interestSavings > 0.0
  {
    LowerRateSaves(loan, input);
    var a := Analyse(loan, input).value;
    CostsOrdered(a.proposed.payment, a.current.payment, loan.termMonths as real, a.proposed.totalCost, a.current.totalCost);
  }

  lemma CostsOrdered(m1: real, m2: real, n: real, c1: real, c2: real)
    requires m1 < m2 && n >= 1.0 && c1 == m1 * n && c2 == m2 * n
    ensures c1 < c2
  {
  }
}
