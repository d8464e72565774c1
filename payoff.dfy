/**
 * The early-payoff calculator (src/components/loans/payoff-calculator.tsx):
 * the original totals from the stored payment, the shorter term when an
 * extra amount is paid every month, its totals, and what it saves.
 *
 * The source computes the new term as
 * `ceil(log(M' / (M' - amount * r)) / log(1 + r))`. Since `log` is
 * increasing, in exact arithmetic this is the least whole number n with
 * `(1 + r)^n >= M' / (M' - amount * r)`; the model computes that number by
 * search, with negative n standing for `(1 + r)^n == 1 / (1 + r)^(-n)`.
 * For a negative rate `log(1 + r)` is negative and the division flips the
 * comparison: the term is then the least n with `(1 + r)^n <= x`.
 */
module Payoff {
  import opened Wrappers
  import opened Annuity
  import opened Amortization
  import opened Types
  import opened Rounding
  import opened LoanCosts

  /** `(1 + r)^n >= x` for a whole, possibly negative, n. */
  predicate Covers(q: real, x: real, n: int)
  {
    if n >= 0 then Pow(q, n) >= x else Times(x, Pow(q, -n)) <= 1.0
  }

  /** Bernoulli's inequality, which bounds the search. */
  lemma {:induction false} Bernoulli(r: real, n: nat)
    requires r >= 0.0
    ensures Pow(1.0 + r, n) >= 1.0 + n as real * r
  {
    if n > 0 {
      Bernoulli(r, n - 1);
      BernoulliStep(r, n as real, Pow(1.0 + r, n - 1));
    }
  }

  lemma BernoulliStep(r: real, k: real, a: real)
    requires r >= 0.0 && k >= 1.0 && a >= 1.0 + (k - 1.0) * r
    ensures (1.0 + r) * a >= 1.0 + k * r
  {
    MulAtLeast(1.0 + r, 1.0 + (k - 1.0) * r, a);
    assert (k - 1.0) * r * r >= 0.0 by { MulAtLeast(r, 0.0, (k - 1.0) * r); }
  }

  lemma MulAtLeast(c: real, x: real, y: real)
    requires c >= 0.0 && x <= y
    ensures c * x <= c * y
  {
  }

  /** Once reached, the bound stays reached: Covers is monotone in n. */
  lemma CoversMonotone(q: real, x: real, j: int, k: int)
    requires q > 1.0 && x > 0.0 && j <= k && Covers(q, x, j)
    ensures Covers(q, x, k)
  {
    if j < k {
      if j >= 0 {
        PowIncreasing(q, j, k);
      } else if k < 0 {
        PowIncreasing(q, -k, -j);
        MulStrictlyIncreasing(x, Pow(q, -k), Pow(q, -j));
      } else {
        PowAboveOne(q, -j);
        BelowOne(x, Pow(q, -j));
        if k > 0 {
          PowAboveOne(q, k);
        }
      }
    }
  }

  lemma BelowOne(x: real, y: real)
    requires x > 0.0 && y > 1.0 && Times(x, y) <= 1.0
    ensures x < 1.0
  {
    MulStrictlyIncreasing(x, 1.0, y);
  }

  lemma MulBothAtLeast(x: real, y: real)
    requires x >= 1.0 && y > 1.0
    ensures x * y > 1.0
  {
    MulStrictlyIncreasing(x, 1.0, y);
  }

  /** The least n in [n0, bound] with `q^n >= x`, searching upwards. */
  function SearchUp(q: real, x: real, n0: nat, bound: nat): (n: nat)
    requires n0 <= bound && Pow(q, bound) >= x
    ensures n0 <= n <= bound && Pow(q, n) >= x
    ensures forall j :: n0 <= j < n ==> Pow(q, j) < x
    decreases bound - n0
  {
    if Pow(q, n0) >= x then n0 else SearchUp(q, x, n0 + 1, bound)
  }

  /** `x * q^k > 1`: the k-th power of q exceeds the reciprocal of x. */
  predicate Exceeds(q: real, x: real, k: nat)
  {
    Times(x, Pow(q, k)) > 1.0
  }

  /** A product kept as one term, so that equal factors give equal products. */
  function Times(a: real, b: real): real
  {
    a * b
  }

  /** The largest k in [k0, bound) with `x * q^k <= 1`, searching upwards. */
  function SearchDown(q: real, x: real, k0: nat, bound: nat): (k: nat)
    requires k0 <= bound && !Exceeds(q, x, k0) && Exceeds(q, x, bound)
    ensures k0 <= k < bound && !Exceeds(q, x, k) && Exceeds(q, x, k + 1)
    decreases bound - k0
  {
    if Exceeds(q, x, k0 + 1) then k0 else SearchDown(q, x, k0 + 1, bound)
  }

  /** A ratio of at least 1 is reached within `ceil((x - 1) / r)` months. */
  function UpBound(r: real, x: real): (b: nat)
    requires r > 0.0 && x >= 1.0
    ensures Pow(1.0 + r, b) >= x
  {
    var c := Ceil((x - 1.0) / r);
    CoverBounds(c, x - 1.0, r);
    Bernoulli(r, c);
    c
  }

  /** For a ratio below 1, `b = ceil((1/x - 1) / r) + 1` gives `x * (1 + b * r) > 1`. */
  function DownBound(r: real, x: real): (b: nat)
    requires r > 0.0 && 0.0 < x < 1.0
    ensures x * (1.0 + b as real * r) > 1.0
  {
    var c := 1.0 / x - 1.0;
    var k := Ceil(c / r);
    CoverBounds(k, c, r);
    ReciprocalStep(x, r, k as real, c);
    k + 1
  }

  lemma ReciprocalStep(x: real, r: real, k: real, c: real)
    requires x > 0.0 && r > 0.0 && c == 1.0 / x - 1.0 && k * r >= c
    ensures x * (1.0 + (k + 1.0) * r) > 1.0
  {
    var xc := x * c;
    assert xc == 1.0 - x;
    var xk := x * (k * r);
    MulAtLeast(x, c, k * r);
    assert x * (1.0 + (k + 1.0) * r) == x + xk + x * r;
    MulPositive(x, r);
  }

  lemma DownExceeds(r: real, x: real)
    requires r > 0.0 && 0.0 < x < 1.0
    ensures Exceeds(1.0 + r, x, DownBound(r, x))
  {
    var b := DownBound(r, x);
    Bernoulli(r, b);
    MulAtLeast(x, 1.0 + b as real * r, Pow(1.0 + r, b));
  }

  /** An upward search result is the least whole number with `q^n >= x`. */
  lemma UpTermLeast(q: real, x: real, n: nat)
    requires q > 1.0 && x >= 1.0 && Pow(q, n) >= x
    requires forall j :: 0 <= j < n ==> Pow(q, j) < x
    ensures Covers(q, x, n) && !Covers(q, x, n - 1)
  {
    if n == 0 {
      assert Pow(q, 1) == q * Pow(q, 0);
      MulBothAtLeast(x, q);
    }
  }

  /** A downward search result k gives the least whole number -k with `q^(-k) >= x`. */
  lemma DownTermLeast(q: real, x: real, k: nat)
    requires q > 1.0 && 0.0 < x < 1.0 && !Exceeds(q, x, k) && Exceeds(q, x, k + 1)
    ensures Covers(q, x, -(k as int)) && !Covers(q, x, -(k as int) - 1)
  {
  }

  /** `ceil(log(x) / log(1 + r))`: the least whole n with `(1 + r)^n >= x`. */
  function Term(r: real, x: real): (n: int)
    requires r > 0.0 && x > 0.0
    ensures Covers(1.0 + r, x, n) && !Covers(1.0 + r, x, n - 1)
    ensures x >= 1.0 ==> n >= 0
    ensures x <= 1.0 ==> n <= 0
  {
    if x >= 1.0 then
      var n := SearchUp(1.0 + r, x, 0, UpBound(r, x));
      UpTermLeast(1.0 + r, x, n);
      n
    else
      DownExceeds(r, x);
      assert !Exceeds(1.0 + r, x, 0) by { assert Pow(1.0 + r, 0) == 1.0; }
      var k := SearchDown(1.0 + r, x, 0, DownBound(r, x));
      DownTermLeast(1.0 + r, x, k);
      -(k as int)
  }

  /** Every whole number below the term falls short: the term is the least one. */
  lemma TermLeast(r: real, x: real, j: int)
    requires r > 0.0 && x > 0.0 && j < Term(r, x)
    ensures !Covers(1.0 + r, x, j)
  {
    if Covers(1.0 + r, x, j) {
      CoversMonotone(1.0 + r, x, j, Term(r, x) - 1);
    }
  }

  /** `(1 + r)^n <= x` for a whole, possibly negative, n: what `ceil` settles when `log(1 + r)` is negative. */
  predicate Undercuts(q: real, x: real, n: int)
  {
    if n >= 0 then Pow(q, n) <= x else Times(x, Pow(q, -n)) >= 1.0
  }

  /** For a rate between -100% and 0 per month, `1 / (1 + r) - 1`: the positive rate whose growth factor is the reciprocal of `1 + r`. */
  function Flipped(r: real): (s: real)
    requires -1.0 < r < 0.0
    ensures s > 0.0
    ensures (1.0 + s) * (1.0 + r) == 1.0
  {
    var q := 1.0 + r;
    assert q * (1.0 / q) == 1.0;
    1.0 / q - 1.0
  }

  /** Powers of reciprocal factors are reciprocal. */
  lemma {:induction false} PowReciprocal(q: real, q': real, n: nat)
    requires q' * q == 1.0
    ensures Pow(q', n) * Pow(q, n) == 1.0
  {
    if n > 0 {
      PowReciprocal(q, q', n - 1);
      ReciprocalProduct(q, q', Pow(q, n - 1), Pow(q', n - 1));
    }
  }

  lemma ReciprocalProduct(q: real, q': real, a: real, a': real)
    requires q' * q == 1.0 && a' * a == 1.0
    ensures (q' * a') * (q * a) == 1.0
  {
    assert (q' * a') * (q * a) == (q' * q) * (a' * a);
  }

  /** Reaching 1/x with factor 1/q is the same as coming down to x with factor q. */
  lemma CoversReciprocal(q: real, q': real, x: real, x': real, n: int)
    requires q > 0.0 && q' * q == 1.0 && x > 0.0 && x' * x == 1.0
    ensures Covers(q', x', n) <==> Undercuts(q, x, n)
  {
    var k: nat := if n >= 0 then n else -n;
    PowReciprocal(q, q', k);
    PowPositive(q, k);
    if n >= 0 {
      ReciprocalOrder(Pow(q, k), Pow(q', k), x, x');
    } else {
      ReciprocalProductOrder(Pow(q, k), Pow(q', k), x, x');
    }
  }

  lemma ReciprocalOrder(a: real, a': real, x: real, x': real)
    requires a > 0.0 && a' * a == 1.0 && x > 0.0 && x' * x == 1.0
    ensures a' >= x' <==> a <= x
  {
    if a' >= x' {
      MulAtLeast(a * x, x', a');
      assert a * x * x' == a && a * x * a' == x;
    } else {
      MulStrictlyIncreasing(a * x, a', x');
      assert a * x * x' == a && a * x * a' == x;
    }
  }

  lemma ReciprocalProductOrder(a: real, a': real, x: real, x': real)
    requires a > 0.0 && a' * a == 1.0 && x > 0.0 && x' * x == 1.0
    ensures Times(x', a') <= 1.0 <==> Times(x, a) >= 1.0
  {
    var p, p' := x * a, x' * a';
    assert p' * p == 1.0 by { assert p' * p == (x' * x) * (a' * a); }
    assert p > 0.0 by { MulPositive(x, a); }
    if p' <= 1.0 {
      MulAtLeast(p, p', 1.0);
    } else {
      MulStrictlyIncreasing(p, 1.0, p');
    }
  }

  /**
   * For -1 < r < 0 the term `ceil(log(x) / log(1 + r))` is the least whole
   * n with `(1 + r)^n <= x`; the model finds it as the term of the
   * reciprocal factor for the reciprocal ratio.
   */
  lemma NegativeRateTerm(r: real, x: real)
    requires -1.0 < r < 0.0 && x > 0.0
    ensures var n := Term(Flipped(r), 1.0 / x);
      Undercuts(1.0 + r, x, n) && !Undercuts(1.0 + r, x, n - 1)
  {
    var q, s, x' := 1.0 + r, Flipped(r), 1.0 / x;
    assert x' * x == 1.0;
    var n := Term(s, x');
    CoversReciprocal(q, 1.0 + s, x, x', n);
    CoversReciprocal(q, 1.0 + s, x, x', n - 1);
  }

  /** No whole number below that term comes down to x. */
  lemma NegativeRateTermLeast(r: real, x: real, j: int)
    requires -1.0 < r < 0.0 && x > 0.0 && j < Term(Flipped(r), 1.0 / x)
    ensures !Undercuts(1.0 + r, x, j)
  {
    var x' := 1.0 / x;
    assert x' * x == 1.0;
    TermLeast(Flipped(r), x', j);
    CoversReciprocal(1.0 + r, 1.0 + Flipped(r), x, x', j);
  }

  /** `newPayment`: the stored payment plus the extra payment. */
  function NewPayment(loan: Loan, extra: real): (mp: real)
    ensures mp - extra == loan.monthlyPayment
  {
    loan.monthlyPayment + extra
  }

  /** `M' / (M' - amount * r)`, the argument of the first `log`; none when the denominator is 0. */
  function Ratio(loan: Loan, extra: real): (x: Option<real>)
    ensures x.Some? <==> NewPayment(loan, extra) != loan.amount * MonthlyRate(loan.interestRate)
  {
    var mp := NewPayment(loan, extra);
    var d := mp - loan.amount * MonthlyRate(loan.interestRate);
    if d == 0.0 then None else Some(mp / d)
  }

  /**
   * `newTermMonths`. For a positive rate it is the least whole n with
   * `(1 + r)^n >= x`; for a rate between -100% and 0 per month `log(1 + r)`
   * is negative and it is the least whole n with `(1 + r)^n <= x`; at
   * exactly -100% `log(1 + r)` is -Infinity and a finite logarithm over it
   * rounds up to 0. Where JavaScript produces a non-finite number (a zero
   * rate makes `log(1 + r)` zero, a zero denominator divides by zero, a
   * ratio of 0 or below or a rate below -100% has no logarithm) the model
   * gives an error.
   */
  function NewTerm(loan: Loan, extra: real): (t: Outcome<int>)
    ensures var r := MonthlyRate(loan.interestRate);
      t.Ok? <==> r != 0.0 && r >= -1.0 && Ratio(loan, extra).Some? && Ratio(loan, extra).value > 0.0
    ensures var r := MonthlyRate(loan.interestRate);
      t.Ok? && r > 0.0 ==> t.row == Term(r, Ratio(loan, extra).value)
    ensures var r := MonthlyRate(loan.interestRate);
      t.Ok? && -1.0 < r < 0.0 ==> t.row == Term(Flipped(r), 1.0 / Ratio(loan, extra).value)
    ensures MonthlyRate(loan.interestRate) == -1.0 && t.Ok? ==> t.row == 0
  {
    var r := MonthlyRate(loan.interestRate);
    if r == 0.0 then Err("rate is zero")
    else if r < -1.0 then Err("rate below -100%")
    else match Ratio(loan, extra)
      case None => Err("division by zero")
      case Some(x) =>
        if x <= 0.0 then Err("logarithm of a non-positive number")
        else if r > 0.0 then Ok(Term(r, x))
        else if r > -1.0 then Ok(Term(Flipped(r), 1.0 / x))
        else Ok(0)
  }

  /** What the payoff summary shows. */
  datatype Figures = Figures(
    original: Totals, newPayment: real, newTermMonths: int, proposed: Totals,
    monthsSaved: int, interestSaved: real)

  /**
   * The calculator's figures once the new term `n` is known: the original
   * totals from the stored payment, the new totals from `M'` over n months,
   * and the savings, where the interest saved is the cost saved because the
   * loan amount cancels.
   */
  function FiguresFor(loan: Loan, extra: real, n: int): (f: Figures)
    ensures f.newPayment == NewPayment(loan, extra) && f.newTermMonths == n
    ensures f.original == TotalsOf(loan.monthlyPayment, loan.termMonths, loan.amount)
    ensures f.proposed == TotalsOf(f.newPayment, n, loan.amount)
    ensures f.monthsSaved == loan.termMonths - n
    ensures f.interestSaved == f.original.totalCost - f.proposed.totalCost
  {
    var original := TotalsOf(loan.monthlyPayment, loan.termMonths, loan.amount);
    var mp := NewPayment(loan, extra);
    var proposed := TotalsOf(mp, n, loan.amount);
    Figures(original, mp, n, proposed, loan.termMonths - n,
            original.totalInterest - proposed.totalInterest)
  }

  /** The whole calculation: an error where the new term is not a number. */
  function Analyse(loan: Loan, extra: real): (o: Outcome<Figures>)
    ensures o.Ok? <==> NewTerm(loan, extra).Ok?
    ensures o.Ok? ==> o.row == FiguresFor(loan, extra, NewTerm(loan, extra).row)
  {
    match NewTerm(loan, extra)
    case Err(code) => Err(code)
    case Ok(n) => Ok(FiguresFor(loan, extra, n))
  }

  /** The summary is rendered only for a positive extra payment. */
  predicate Shown(extra: real)
  {
    extra > 0.0
  }

  /**
   * `Math.floor(n / 12)` years and `n % 12` months. JavaScript's `%` takes
   * the sign of n; for a term of 0 or more the two parts rebuild it and
   * the months part is below 12.
   */
  function YearsAndMonths(n: int): (ym: (int, int))
    ensures n >= 0 ==> 12 * ym.0 + ym.1 == n && 0 <= ym.1 < 12
    ensures n < 0 ==> ym.0 < 0 && -12 < ym.1 <= 0
  {
    (n / 12, if n >= 0 then n % 12 else -((-n) % 12))
  }

  /**
   * For a loan of 0 or more at a positive rate whose new payment exceeds
   * the first month's interest, the new term is the first month at which
   * paying `M'` every month leaves nothing owed: the running balance is 0
   * or below then, and positive at every earlier month.
   */
  lemma NewTermRepays(loan: Loan, extra: real)
    requires loan.interestRate > 0.0 && loan.amount >= 0.0
    requires NewPayment(loan, extra) > loan.amount * MonthlyRate(loan.interestRate)
    ensures NewTerm(loan, extra).Ok? && NewTerm(loan, extra).row >= 0
    ensures RunningBalance(loan.amount, MonthlyRate(loan.interestRate), NewPayment(loan, extra),
                           NewTerm(loan, extra).row) <= 0.0
    ensures forall k: nat :: k < NewTerm(loan, extra).row ==>
      RunningBalance(loan.amount, MonthlyRate(loan.interestRate), NewPayment(loan, extra), k) > 0.0
  {
    var r := MonthlyRate(loan.interestRate);
    var mp := NewPayment(loan, extra);
    var d := mp - loan.amount * r;
    var x := Ratio(loan, extra).value;
    assert x == mp / d;
    RepaidAtTerm(loan.amount, r, mp, d, x);
  }

  /** The same in terms of the ratio: the least n with `(1 + r)^n >= x` is the month of repayment. */
  lemma RepaidAtTerm(p: real, r: real, m: real, d: real, x: real)
    requires r > 0.0 && p >= 0.0 && d == m - p * r && d > 0.0 && x == m / d
    ensures Term(r, x) >= 0 && RunningBalance(p, r, m, Term(r, x)) <= 0.0
    ensures forall k: nat :: k < Term(r, x) ==> RunningBalance(p, r, m, k) > 0.0
  {
    assert x >= 1.0 by {
      MulAtLeast(r, 0.0, p);
      AtLeastOne(m, d, x);
    }
    var n := Term(r, x);
    CoversIffRepaid(p, r, m, d, x, n);
    var q := 1.0 + r;
    forall k: nat | k < n
      ensures !Covers(q, x, k)
    {
      TermLeast(r, x, k);
    }
    RepaidNotBefore(p, r, q, m, d, x, n);
  }

  lemma RepaidNotBefore(p: real, r: real, q: real, m: real, d: real, x: real, n: int)
    requires r > 0.0 && q == 1.0 + r && d == m - p * r && d > 0.0 && x == m / d
    requires forall k: nat :: k < n ==> !Covers(q, x, k)
    ensures forall k: nat :: k < n ==> RunningBalance(p, r, m, k) > 0.0
  {
    forall k: nat | k < n
      ensures RunningBalance(p, r, m, k) > 0.0
    {
      CoversIffRepaid(p, r, m, d, x, k);
    }
  }

  lemma AtLeastOne(m: real, d: real, x: real)
    requires 0.0 < d <= m && x == m / d
    ensures x >= 1.0
  {
    assert x * d == m;
  }

  /** Reaching the ratio after k months is the same as having repaid the loan after k months. */
  lemma CoversIffRepaid(p: real, r: real, m: real, d: real, x: real, k: nat)
    requires r > 0.0 && d == m - p * r && d > 0.0 && x == m / d
    ensures Covers(1.0 + r, x, k) <==> RunningBalance(p, r, m, k) <= 0.0
  {
    ExcessClosedForm(p, r, m, k);
    SignLink(RunningBalance(p, r, m, k), r, m, p * r, d, Pow(1.0 + r, k), x);
  }

  lemma SignLink(b: real, r: real, m: real, pr: real, d: real, a: real, x: real)
    requires r > 0.0 && d == m - pr && d > 0.0 && x == m / d && b * r - m == (pr - m) * a
    ensures a >= x <==> b <= 0.0
  {
    var dx, da, br := d * x, d * a, b * r;
    assert dx == m;
    assert (pr - m) * a == -da;
    assert br == m - da;
    if a >= x {
      MulAtLeast(d, x, a);
      assert b <= 0.0 by { NonPositiveFactor(b, r); }
    } else {
      MulStrictlyIncreasing(d, a, x);
      assert b > 0.0 by { PositiveFactor(b, r); }
    }
  }

  lemma NonPositiveFactor(b: real, r: real)
    requires r > 0.0 && b * r <= 0.0
    ensures b <= 0.0
  {
    if b > 0.0 {
      MulPositive(b, r);
    }
  }

  lemma PositiveFactor(b: real, r: real)
    requires r > 0.0 && b * r > 0.0
    ensures b > 0.0
  {
  }

  /** A larger monthly payment leaves no more owed after any number of months. */
  lemma {:induction false} MorePaymentLowerBalance(p: real, r: real, m1: real, m2: real, k: nat)
    requires r >= 0.0 && m1 <= m2
    ensures RunningBalance(p, r, m2, k) <= RunningBalance(p, r, m1, k)
  {
    if k > 0 {
      MorePaymentLowerBalance(p, r, m1, m2, k - 1);
      BalanceStepOrdered(RunningBalance(p, r, m1, k - 1), RunningBalance(p, r, m2, k - 1), m1, m2, r);
    }
  }

  lemma BalanceStepOrdered(b1: real, b2: real, m1: real, m2: real, r: real)
    requires b2 <= b1 && m1 <= m2 && r >= 0.0
    ensures b2 - (m2 - b2 * r) <= b1 - (m1 - b1 * r)
  {
    MulAtLeast(r, b2, b1);
    calc {
      b2 - (m2 - b2 * r);
    ==
      b2 + b2 * r - m2;
    <=
      b1 + b1 * r - m2;
    <=
      b1 + b1 * r - m1;
    ==
      b1 - (m1 - b1 * r);
    }
  }

  /**
   * Paying more each month never lengthens the payoff: with extra payments
   * e1 <= e2 (the smaller one already beyond the first month's interest),
   * the term for e2 is at most the term for e1.
   */
  lemma MoreExtraShortens(loan: Loan, e1: real, e2: real)
    requires loan.interestRate > 0.0 && loan.amount >= 0.0
    requires NewPayment(loan, e1) > loan.amount * MonthlyRate(loan.interestRate)
    requires e1 <= e2
    ensures NewTerm(loan, e1).Ok? && NewTerm(loan, e2).Ok?
    ensures 0 <= NewTerm(loan, e2).row <= NewTerm(loan, e1).row
  {
    var r := MonthlyRate(loan.interestRate);
    NewTermRepays(loan, e1);
    NewTermRepays(loan, e2);
    var n1 := NewTerm(loan, e1).row;
    MorePaymentLowerBalance(loan.amount, r, NewPayment(loan, e1), NewPayment(loan, e2), n1);
  }

  /** The month at which a balance first reaches 0 or below is unique. */
  lemma FirstRepaidUnique(p: real, r: real, m: real, n: nat, t: nat)
    requires RunningBalance(p, r, m, n) <= 0.0 && forall k: nat :: k < n ==> RunningBalance(p, r, m, k) > 0.0
    requires RunningBalance(p, r, m, t) <= 0.0 && forall k: nat :: k < t ==> RunningBalance(p, r, m, k) > 0.0
    ensures n == t
  {
  }

  /**
   * Without an extra payment, a loan whose stored payment is the annuity
   * payment keeps its own term: nothing is saved.
   */
  lemma ZeroExtraKeepsTerm(loan: Loan)
    requires loan.amount > 0.0 && loan.interestRate > 0.0 && loan.termMonths >= 1
    requires loan.monthlyPayment == Payment(loan.amount, MonthlyRate(loan.interestRate), loan.termMonths)
    ensures NewTerm(loan, 0.0) == Ok(loan.termMonths)
    ensures Analyse(loan, 0.0).Ok?
    ensures Analyse(loan, 0.0).row.monthsSaved == 0 && Analyse(loan, 0.0).row.interestSaved == 0.0
  {
    var r := MonthlyRate(loan.interestRate);
    var t: nat := loan.termMonths;
    PaymentEquation(loan.amount, r, t);
    assert NewPayment(loan, 0.0) == loan.monthlyPayment;
    NewTermRepays(loan, 0.0);
    FinalBalanceZero(loan.amount, r, t);
    forall k: nat | k < t
      ensures RunningBalance(loan.amount, r, loan.monthlyPayment, k) > 0.0
    {
      BalancePositiveBeforeEnd(loan.amount, r, t, k);
    }
    FirstRepaidUnique(loan.amount, r, loan.monthlyPayment, NewTerm(loan, 0.0).row, t);
  }

  /**
   * Under the same conditions any extra payment of 0 or more gives a term
   * between 0 and the loan's own, so the months saved are never negative.
   */
  lemma ExtraNeverLengthens(loan: Loan, extra: real)
    requires loan.amount > 0.0 && loan.interestRate > 0.0 && loan.termMonths >= 1
    requires loan.monthlyPayment == Payment(loan.amount, MonthlyRate(loan.interestRate), loan.termMonths)
    requires extra >= 0.0
    ensures NewTerm(loan, extra).Ok? && 0 <= NewTerm(loan, extra).row <= loan.termMonths
    ensures Analyse(loan, extra).Ok? && Analyse(loan, extra).row.monthsSaved >= 0
  {
    ZeroExtraKeepsTerm(loan);
    StoredPaymentCoversInterest(loan);
    MoreExtraShortens(loan, 0.0, extra);
  }

  /** The annuity payment exceeds the first month's interest. */
  lemma StoredPaymentCoversInterest(loan: Loan)
    requires loan.amount > 0.0 && loan.interestRate > 0.0 && loan.termMonths >= 1
    requires loan.monthlyPayment == Payment(loan.amount, MonthlyRate(loan.interestRate), loan.termMonths)
    ensures NewPayment(loan, 0.0) > loan.amount * MonthlyRate(loan.interestRate)
  {
    PaymentEquation(loan.amount, MonthlyRate(loan.interestRate), loan.termMonths);
  }

  /**
   * When the extra payment does not shorten the term, the calculator
   * reports the extra payments over the whole term as a negative saving:
   * the new total assumes every month, the last included, is paid in full.
   */
  lemma UnchangedTermCostsMore(loan: Loan, extra: real)
    ensures FiguresFor(loan, extra, loan.termMonths).interestSaved == -(extra * loan.termMonths as real)
    ensures extra > 0.0 && loan.termMonths >= 1 ==> FiguresFor(loan, extra, loan.termMonths).interestSaved < 0.0
  {
    SavedWhenSameTerm(FiguresFor(loan, extra, loan.termMonths), loan.monthlyPayment, extra, loan.termMonths, loan.amount);
  }

  lemma SavedWhenSameTerm(f: Figures, m: real, e: real, n: int, a: real)
    requires f.original == TotalsOf(m, n, a) && f.newPayment - e == m
    requires f.proposed == TotalsOf(f.newPayment, n, a)
    requires f.interestSaved == f.original.totalCost - f.proposed.totalCost
    ensures f.interestSaved == -(e * n as real)
    ensures e > 0.0 && n >= 1 ==> f.interestSaved < 0.0
  {
    var t := n as real;
    CostDifference(f.original.totalCost, f.proposed.totalCost, m, f.newPayment, e, t);
    if e > 0.0 && t >= 1.0 {
      MulPositive(e, t);
    }
  }

  lemma CostDifference(c1: real, c2: real, m: real, mp: real, e: real, t: real)
    requires c1 == m * t && c2 == mp * t && mp - e == m
    ensures c1 - c2 == -(e * t)
  {
    assert c1 - c2 == (m - mp) * t;
  }
}
