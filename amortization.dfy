/**
 * calculateAmortization (src/lib/utils.ts): the fixed monthly payment and
 * the month-by-month schedule of a loan, with the facts the amortization
 * page relies on (the balance reaches zero on the last month, the
 * principal column repays the loan, the interest column is the total
 * interest).
 */
module Amortization {
  import opened Annuity
  import opened Sums

  /** One row of the schedule; `totalInterest` is the interest paid up to and including this month. */
  datatype Row = Row(
    month: nat, payment: real, principal: real, interest: real, balance: real, totalInterest: real)

  datatype Result = Result(
    monthlyPayment: real, totalPayment: real, totalInterest: real, schedule: seq<Row>)

  /** `Math.max(0, x)`. */
  function Max0(x: real): (m: real)
    ensures m >= 0.0 && m >= x
    ensures m == x || m == 0.0
  {
    if x > 0.0 then x else 0.0
  }

  /**
   * The loop's unclamped `balance` after k payments of m: each month
   * accrues interest at r on the balance and the payment is taken off.
   */
  function RunningBalance(p: real, r: real, m: real, k: nat): real
  {
    if k == 0 then p else
    var b := RunningBalance(p, r, m, k - 1);
    b - (m - b * r)
  }

  /** `rows.reduce((sum, row) => sum + row.interest, 0)`. */
  function InterestSum(rows: seq<Row>): real
  {
    Sum(rows, (row: Row) => row.interest)
  }

  function PrincipalSum(rows: seq<Row>): real
  {
    Sum(rows, (row: Row) => row.principal)
  }

  /** The first k rows the loop pushes, for principal p, monthly rate r and payment m. */
  function Schedule(p: real, r: real, m: real, k: nat): (s: seq<Row>)
    ensures |s| == k
  {
    if k == 0 then [] else
    var prev := Schedule(p, r, m, k - 1);
    var b := RunningBalance(p, r, m, k - 1);
    var interest := b * r;
    prev + [Row(k, m, m - interest, interest, Max0(b - (m - interest)), InterestSum(prev) + interest)]
  }

  /** The value calculateAmortization returns. A term of 0 months has no last row to read. */
  function AmortizationOf(principal: real, annualRate: real, termMonths: nat): (res: Result)
    requires annualRate > 0.0 && termMonths >= 1
    ensures |res.schedule| == termMonths
  {
    var r := MonthlyRate(annualRate);
    var m := Payment(principal, r, termMonths);
    Summary(m, termMonths, Schedule(principal, r, m, termMonths))
  }

  /** The returned record: the payment, the payment times the number of rows, and the last row's running interest. */
  function Summary(m: real, n: nat, s: seq<Row>): Result
    requires |s| == n >= 1
  {
    Result(m, m * n as real, s[n - 1].totalInterest, s)
  }

  /** calculateAmortization: the loop over months 1..termMonths. */
  method CalculateAmortization(principal: real, annualRate: real, termMonths: nat) returns (res: Result)
    requires annualRate > 0.0 && termMonths >= 1
    ensures res == AmortizationOf(principal, annualRate, termMonths)
  {
    var monthlyRate := MonthlyRate(annualRate);
    var monthlyPayment := Payment(principal, monthlyRate, termMonths);
    var balance := principal;
    var schedule: seq<Row> := [];
    var month := 1;
    ghost var paid: nat := 0;
    while month <= termMonths
      invariant month == paid + 1 <= termMonths + 1
      invariant balance == RunningBalance(principal, monthlyRate, monthlyPayment, paid)
      invariant schedule == Schedule(principal, monthlyRate, monthlyPayment, paid)
    {
      var interest := balance * monthlyRate;
      var principalPart := monthlyPayment - interest;
      ScheduleStep(principal, monthlyRate, monthlyPayment, paid, balance, interest, principalPart);
      balance := balance - principalPart;
      schedule := schedule + [Row(month, monthlyPayment, principalPart, interest, Max0(balance),
                                  InterestSum(schedule) + interest)];
      month := month + 1;
      paid := paid + 1;
    }
    res := Summary(monthlyPayment, termMonths, schedule);
  }

  /** One pass of the loop body extends the balance and the schedule by one month. */
  lemma ScheduleStep(p: real, r: real, m: real, j: nat, b: real, interest: real, principalPart: real)
    requires b == RunningBalance(p, r, m, j) && interest == b * r && principalPart == m - interest
    ensures RunningBalance(p, r, m, j + 1) == b - principalPart
    ensures Schedule(p, r, m, j + 1)
         == Schedule(p, r, m, j)
            + [Row(j + 1, m, principalPart, interest, Max0(b - principalPart),
                   InterestSum(Schedule(p, r, m, j)) + interest)]
  {
    assert j + 1 - 1 == j;
  }

  /** Later months never rewrite earlier rows. */
  lemma {:induction false} SchedulePrefix(p: real, r: real, m: real, j: nat, k: nat)
    requires j <= k
    ensures Schedule(p, r, m, k)[..j] == Schedule(p, r, m, j)
    decreases k
  {
    if j < k {
      SchedulePrefix(p, r, m, j, k - 1);
      var s := Schedule(p, r, m, k);
      assert s[..k - 1] == Schedule(p, r, m, k - 1);
      assert s[..j] == s[..k - 1][..j];
    }
  }

  /** The row month j + 1 appends: interest on the balance before it, the rest of m repays principal. */
  lemma LastRow(p: real, r: real, m: real, j: nat)
    ensures var row := Schedule(p, r, m, j + 1)[j];
      && row.month == j + 1
      && row.payment == m
      && row.interest == RunningBalance(p, r, m, j) * r
      && row.principal + row.interest == m
      && row.balance == Max0(RunningBalance(p, r, m, j + 1))
  {
    var b := RunningBalance(p, r, m, j);
    ScheduleStep(p, r, m, j, b, b * r, m - b * r);
  }

  /**
   * Row i (month i + 1): payment m split into interest on the balance
   * before it and principal, the balance after it clamped at zero, and the
   * running interest total of rows 0..i.
   */
  lemma ScheduleRow(p: real, r: real, m: real, k: nat, i: nat)
    requires i < k
    ensures var row := Schedule(p, r, m, k)[i];
      && row.month == i + 1
      && row.payment == m
      && row.interest == RunningBalance(p, r, m, i) * r
      && row.principal + row.interest == m
      && row.balance == Max0(RunningBalance(p, r, m, i + 1))
      && row.totalInterest == InterestSum(Schedule(p, r, m, k)[..i + 1])
  {
    SchedulePrefix(p, r, m, i + 1, k);
    LastRow(p, r, m, i);
    FinalRow(p, r, m, i + 1);
    assert Schedule(p, r, m, k)[i] == Schedule(p, r, m, k)[..i + 1][i];
  }

  /** The principal column of the first k rows is what the balance has gone down by. */
  lemma {:induction false} PrincipalRepaid(p: real, r: real, m: real, k: nat)
    ensures PrincipalSum(Schedule(p, r, m, k)) == p - RunningBalance(p, r, m, k)
  {
    if k > 0 {
      PrincipalRepaid(p, r, m, k - 1);
      var prev := Schedule(p, r, m, k - 1);
      var s := Schedule(p, r, m, k);
      assert s == prev + [s[k - 1]];
      SumSnoc(prev, s[k - 1], (row: Row) => row.principal);
    }
  }

  /** `m + m + ... + m`, k times. */
  function Repeated(m: real, k: nat): real
  {
    if k == 0 then 0.0 else Repeated(m, k - 1) + m
  }

  lemma {:induction false} RepeatedIsProduct(m: real, k: nat)
    ensures Repeated(m, k) == m * k as real
  {
    if k > 0 {
      RepeatedIsProduct(m, k - 1);
      assert m * k as real == m * (k - 1) as real + m;
    }
  }

  /** Interest plus principal over the first k rows is k payments. */
  lemma {:induction false} PaymentsSplit(p: real, r: real, m: real, k: nat)
    ensures InterestSum(Schedule(p, r, m, k)) + PrincipalSum(Schedule(p, r, m, k)) == Repeated(m, k)
  {
    if k > 0 {
      PaymentsSplit(p, r, m, k - 1);
      var s := Schedule(p, r, m, k);
      LastRowSplit(p, r, m, k);
      SumSnoc(Schedule(p, r, m, k - 1), s[k - 1], (row: Row) => row.principal);
      SumSnoc(Schedule(p, r, m, k - 1), s[k - 1], (row: Row) => row.interest);
    }
  }

  /** Month k appends one row, whose interest and principal make up the payment. */
  lemma LastRowSplit(p: real, r: real, m: real, k: nat)
    requires k >= 1
    ensures Schedule(p, r, m, k) == Schedule(p, r, m, k - 1) + [Schedule(p, r, m, k)[k - 1]]
    ensures Schedule(p, r, m, k)[k - 1].interest + Schedule(p, r, m, k)[k - 1].principal == m
  {
  }

  /**
   * How far the payment exceeds the month's interest shrinks geometrically:
   * `balance_k * r - m == (p * r - m) * (1 + r)^k`.
   */
  lemma {:induction false} ExcessClosedForm(p: real, r: real, m: real, k: nat)
    ensures RunningBalance(p, r, m, k) * r - m == (p * r - m) * Pow(1.0 + r, k)
  {
    if k > 0 {
      ExcessClosedForm(p, r, m, k - 1);
      var b := RunningBalance(p, r, m, k - 1);
      ExcessStep(b, RunningBalance(p, r, m, k), r, m, p * r - m, Pow(1.0 + r, k - 1), Pow(1.0 + r, k));
    } else {
      assert Pow(1.0 + r, k) == 1.0;
    }
  }

  lemma ExcessStep(b: real, b': real, r: real, m: real, d: real, a: real, a': real)
    requires b * r - m == d * a && b' == b - (m - b * r) && a' == (1.0 + r) * a
    ensures b' * r - m == d * a'
  {
    assert b' * r - m == (b * r - m) * (1.0 + r);
  }

  /** With the annuity payment the balance after the last month is exactly zero. */
  lemma FinalBalanceZero(p: real, r: real, n: nat)
    requires r > 0.0 && n >= 1
    ensures RunningBalance(p, r, Payment(p, r, n), n) == 0.0
  {
    var m := Payment(p, r, n);
    PaymentEquation(p, r, n);
    ExcessClosedForm(p, r, m, n);
    ZeroFromExcess(RunningBalance(p, r, m, n), p, r, m, Pow(1.0 + r, n));
  }

  lemma ZeroFromExcess(b: real, p: real, r: real, m: real, a: real)
    requires r > 0.0 && b * r - m == (p * r - m) * a && m * (a - 1.0) == p * r * a
    ensures b == 0.0
  {
    assert b * r == 0.0;
  }

  /**
   * A payment above the first month's interest keeps exceeding the
   * interest, so every month pays some principal and the balance strictly
   * falls.
   */
  lemma {:induction false} BalanceFalls(p: real, r: real, m: real, k: nat)
    requires r > 0.0 && m > p * r
    ensures m > RunningBalance(p, r, m, k) * r
    ensures RunningBalance(p, r, m, k + 1) < RunningBalance(p, r, m, k)
  {
    if k > 0 {
      BalanceFalls(p, r, m, k - 1);
      var b, b' := RunningBalance(p, r, m, k - 1), RunningBalance(p, r, m, k);
      MulStrictlyIncreasing(r, b', b);
      assert b' * r < b * r;
    }
  }

  lemma {:induction false} BalanceFallsBetween(p: real, r: real, m: real, j: nat, k: nat)
    requires r > 0.0 && m > p * r && j < k
    ensures RunningBalance(p, r, m, k) < RunningBalance(p, r, m, j)
    decreases k
  {
    BalanceFalls(p, r, m, k - 1);
    if j < k - 1 {
      BalanceFallsBetween(p, r, m, j, k - 1);
    }
  }

  /** For a positive principal the loan is still owed before the last month. */
  lemma BalancePositiveBeforeEnd(p: real, r: real, n: nat, k: nat)
    requires p > 0.0 && r > 0.0 && k < n
    ensures RunningBalance(p, r, Payment(p, r, n), k) > 0.0
  {
    FinalBalanceZero(p, r, n);
    PaymentEquation(p, r, n);
    BalanceFallsBetween(p, r, Payment(p, r, n), k, n);
  }

  /** The total payment shown is n times the monthly payment. */
  lemma TotalPaymentIsPayments(principal: real, annualRate: real, n: nat)
    requires annualRate > 0.0 && n >= 1
    ensures var res := AmortizationOf(principal, annualRate, n);
      res.totalPayment == res.monthlyPayment * n as real
  {
  }

  /** The total interest shown is the total payment minus the principal. */
  lemma TotalInterestIsRest(principal: real, annualRate: real, n: nat)
    requires annualRate > 0.0 && n >= 1
    ensures var res := AmortizationOf(principal, annualRate, n);
      res.totalInterest == res.totalPayment - principal
  {
    var r := MonthlyRate(annualRate);
    var m := Payment(principal, r, n);
    InterestTotal(principal, r, n);
    SummaryInterest(m, n, Schedule(principal, r, m, n), principal);
  }

  lemma SummaryInterest(m: real, n: nat, s: seq<Row>, p: real)
    requires |s| == n >= 1 && s[n - 1].totalInterest == m * n as real - p
    ensures Summary(m, n, s).totalInterest == Summary(m, n, s).totalPayment - p
  {
  }

  /** The last row of the schedule shows a zero balance. */
  lemma LoanPaidOff(principal: real, annualRate: real, n: nat)
    requires annualRate > 0.0 && n >= 1
    ensures AmortizationOf(principal, annualRate, n).schedule[n - 1].balance == 0.0
  {
    FinalBalance(principal, MonthlyRate(annualRate), n);
  }

  /** The last row's running interest is n payments minus the principal. */
  lemma InterestTotal(p: real, r: real, n: nat)
    requires r > 0.0 && n >= 1
    ensures Schedule(p, r, Payment(p, r, n), n)[n - 1].totalInterest == Payment(p, r, n) * n as real - p
  {
    FinalBalanceZero(p, r, n);
    InterestOnceRepaid(p, r, Payment(p, r, n), n);
  }

  /** Once n payments of m clear the balance, the interest paid is the n payments minus the principal. */
  lemma InterestOnceRepaid(p: real, r: real, m: real, n: nat)
    requires n >= 1 && RunningBalance(p, r, m, n) == 0.0
    ensures Schedule(p, r, m, n)[n - 1].totalInterest == m * n as real - p
  {
    var s := Schedule(p, r, m, n);
    FinalRow(p, r, m, n);
    PrincipalRepaid(p, r, m, n);
    PaymentsSplit(p, r, m, n);
    RepeatedIsProduct(m, n);
    InterestIsRest(s[n - 1].totalInterest, InterestSum(s), PrincipalSum(s), m * n as real,
                   p, RunningBalance(p, r, m, n));
  }

  /** The last row's balance is zero. */
  lemma FinalBalance(p: real, r: real, n: nat)
    requires r > 0.0 && n >= 1
    ensures Schedule(p, r, Payment(p, r, n), n)[n - 1].balance == 0.0
  {
    FinalRow(p, r, Payment(p, r, n), n);
    FinalBalanceZero(p, r, n);
    assert Max0(0.0) == 0.0;
  }

  /** The last of k rows carries the interest total of all k rows and the clamped final balance. */
  lemma FinalRow(p: real, r: real, m: real, k: nat)
    requires k >= 1
    ensures Schedule(p, r, m, k)[k - 1].totalInterest == InterestSum(Schedule(p, r, m, k))
    ensures Schedule(p, r, m, k)[k - 1].balance == Max0(RunningBalance(p, r, m, k))
  {
    var prev := Schedule(p, r, m, k - 1);
    SumSnoc(prev, Schedule(p, r, m, k)[k - 1], (row: Row) => row.interest);
    assert Schedule(p, r, m, k) == prev + [Schedule(p, r, m, k)[k - 1]];
  }

  lemma InterestIsRest(last: real, interest: real, principalPaid: real, total: real, p: real, b: real)
    requires last == interest && interest + principalPaid == total && principalPaid == p - b && b == 0.0
    ensures last == total - p
  {
  }

  /**
   * Every row of the schedule: its month number, the fixed payment, split
   * into principal and interest. For a positive principal every row repays
   * some principal and every row before the last leaves a positive balance.
   */
  lemma AmortizationRows(principal: real, annualRate: real, n: nat, i: nat)
    requires annualRate > 0.0 && i < n
    ensures var res := AmortizationOf(principal, annualRate, n);
      && res.schedule[i].month == i + 1
      && res.schedule[i].payment == res.monthlyPayment
      && res.schedule[i].principal + res.schedule[i].interest == res.monthlyPayment
      && (principal > 0.0 ==> res.schedule[i].principal > 0.0)
      && (principal > 0.0 && i < n - 1 ==> res.schedule[i].balance > 0.0)
  {
    var r := MonthlyRate(annualRate);
    var m := Payment(principal, r, n);
    var s := Schedule(principal, r, m, n);
    assert AmortizationOf(principal, annualRate, n) == Summary(m, n, s);
    ScheduleRow(principal, r, m, n, i);
    if principal > 0.0 {
      PaymentEquation(principal, r, n);
      BalanceFalls(principal, r, m, i);
      if i < n - 1 {
        BalancePositiveBeforeEnd(principal, r, n, i + 1);
      }
    }
  }
}
