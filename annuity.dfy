/**
 * The fixed-payment (annuity) formula shared by the amortization engine
 * (src/lib/utils.ts) and the refinance analysis: with monthly rate r and
 * n payments, `P * r * (1+r)^n / ((1+r)^n - 1)`.
 */
module Annuity {

  // Small facts of ordered-field arithmetic the solver needs spelled out.

  lemma MulStrictlyIncreasing(c: real, x: real, y: real)
    requires c > 0.0 && x < y
    ensures c * x < c * y
  {
  }

  lemma MulPositive(x: real, y: real)
    requires x > 0.0 && y > 0.0
    ensures x * y > 0.0
  {
  }

  lemma CancelPositive(a: real, b: real, d: real)
    requires d > 0.0 && a * d > b * d
    ensures a > b
  {
  }

  /** `Math.pow(x, n)` for a whole exponent n. */
  function Pow(x: real, n: nat): real
  {
    if n == 0 then 1.0 else x * Pow(x, n - 1)
  }

  /** `annualRate / 100 / 12`: a nominal annual percentage as a monthly fraction. */
  function MonthlyRate(annualRate: real): (r: real)
    ensures r * 1200.0 == annualRate
  {
    annualRate / 100.0 / 12.0
  }

  lemma {:induction false} PowPositive(x: real, n: nat)
    requires x > 0.0
    ensures Pow(x, n) > 0.0
  {
    if n > 0 {
      PowPositive(x, n - 1);
      MulPositive(x, Pow(x, n - 1));
    }
  }

  /** For a base above 1, powers grow strictly with the exponent. */
  lemma {:induction false} PowIncreasing(x: real, a: nat, b: nat)
    requires x > 1.0 && a < b
    ensures Pow(x, a) < Pow(x, b)
    decreases b
  {
    PowPositive(x, b - 1);
    if a < b - 1 {
      PowIncreasing(x, a, b - 1);
    }
    MulStrictlyIncreasing(Pow(x, b - 1), 1.0, x);
  }

  lemma PowAboveOne(x: real, n: nat)
    requires x > 1.0 && n >= 1
    ensures Pow(x, n) > 1.0
  {
    PowIncreasing(x, 0, n);
  }

  /** Powers are strictly increasing in the base, for positive bases and n >= 1. */
  lemma {:induction false} PowBaseIncreasing(x: real, y: real, n: nat)
    requires 0.0 < x < y && n >= 1
    ensures Pow(x, n) < Pow(y, n)
  {
    if n == 1 {
      assert Pow(x, 0) == Pow(y, 0) == 1.0;
    } else {
      PowBaseIncreasing(x, y, n - 1);
      PowPositive(x, n - 1);
      MulBothIncreasing(x, y, Pow(x, n - 1), Pow(y, n - 1));
    }
  }

  lemma MulBothIncreasing(x: real, y: real, a: real, b: real)
    requires 0.0 < x < y && 0.0 < a < b
    ensures x * a < y * b
  {
    MulStrictlyIncreasing(a, x, y);
    MulStrictlyIncreasing(y, a, b);
  }

  /** `1 + q + ... + q^(n-1)`, in Horner form `q * (1 + ... + q^(n-2)) + 1`. */
  function GeomSum(q: real, n: nat): real
  {
    if n == 0 then 0.0 else q * GeomSum(q, n - 1) + 1.0
  }

  lemma {:induction false} GeomSumClosed(q: real, n: nat)
    ensures Pow(q, n) - 1.0 == (q - 1.0) * GeomSum(q, n)
  {
    if n > 0 {
      GeomSumClosed(q, n - 1);
      GeomStep(q, Pow(q, n - 1), GeomSum(q, n - 1));
    }
  }

  lemma GeomStep(q: real, a: real, g: real)
    requires a - 1.0 == (q - 1.0) * g
    ensures q * a - 1.0 == (q - 1.0) * (q * g + 1.0)
  {
    assert q * a == q * ((q - 1.0) * g) + q;
  }

  lemma {:induction false} GeomSumAtLeastOne(q: real, n: nat)
    requires q > 0.0 && n >= 1
    ensures GeomSum(q, n) >= 1.0
  {
    if n > 1 {
      GeomSumAtLeastOne(q, n - 1);
      MulPositive(q, GeomSum(q, n - 1));
    }
  }

  /** For a base between 0 and 1, every positive power lies below 1. */
  lemma {:induction false} PowBelowOne(x: real, n: nat)
    requires 0.0 < x < 1.0 && n >= 1
    ensures Pow(x, n) < 1.0
  {
    if n > 1 {
      PowBelowOne(x, n - 1);
      PowPositive(x, n - 1);
      MulStrictlyIncreasing(x, Pow(x, n - 1), 1.0);
    }
  }

  /**
   * Above -100% a month the divisor `(1+r)^n - 1` vanishes exactly at a
   * zero rate.
   */
  lemma PowIsOne(r: real, n: nat)
    requires n >= 1
    ensures r > -1.0 ==> (Pow(1.0 + r, n) == 1.0 <==> r == 0.0)
  {
    if r > 0.0 {
      PowAboveOne(1.0 + r, n);
    } else if -1.0 < r < 0.0 {
      PowBelowOne(1.0 + r, n);
    } else {
      PowOfOne(n);
    }
  }

  lemma {:induction false} PowOfOne(n: nat)
    ensures Pow(1.0, n) == 1.0
  {
    if n > 0 {
      PowOfOne(n - 1);
    }
  }

  /**
   * `P * r * (1+r)^n / ((1+r)^n - 1)` exactly as the source writes it, for
   * any rate whose divisor is not zero.
   */
  function Formula(principal: real, r: real, n: nat): (m: real)
    requires Pow(1.0 + r, n) != 1.0
    ensures m * (Pow(1.0 + r, n) - 1.0) == principal * r * Pow(1.0 + r, n)
  {
    var q := Pow(1.0 + r, n);
    Quotient(principal * r * q, q - 1.0)
  }

  /**
   * The fixed monthly payment for `principal` at monthly rate `r` over `n`
   * months: the formula on the rates above -100% a month where it is
   * defined, that is every such rate but zero (0/0 there).
   */
  function Payment(principal: real, r: real, n: nat): real
    requires r > -1.0 && r != 0.0 && n >= 1
  {
    PowIsOne(r, n);
    Formula(principal, r, n)
  }

  function Quotient(a: real, b: real): real
    requires b != 0.0
  {
    a / b
  }

  /**
   * The defining equation of the payment, `m * ((1+r)^n - 1) == P * r * (1+r)^n`,
   * and, for a positive principal, a payment above the first month's interest.
   */
  lemma PaymentEquation(principal: real, r: real, n: nat)
    requires r > -1.0 && r != 0.0 && n >= 1
    ensures Payment(principal, r, n) * (Pow(1.0 + r, n) - 1.0) == principal * r * Pow(1.0 + r, n)
    ensures principal > 0.0 ==> Payment(principal, r, n) > principal * r
  {
    var q := Pow(1.0 + r, n);
    if r > 0.0 {
      PowAboveOne(1.0 + r, n);
      ExceedsFirstInterest(Payment(principal, r, n), principal, r, q);
    } else {
      PowPositive(1.0 + r, n);
      PowBelowOne(1.0 + r, n);
      ExceedsNegativeInterest(Payment(principal, r, n), principal, r, q);
    }
  }

  lemma ExceedsFirstInterest(m: real, principal: real, r: real, q: real)
    requires r > 0.0 && q > 1.0 && m * (q - 1.0) == principal * r * q
    ensures principal > 0.0 ==> m > principal * r
  {
    if principal > 0.0 {
      MulPositive(principal, r);
      MulStrictlyIncreasing(principal * r, q - 1.0, q);
      CancelPositive(m, principal * r, q - 1.0);
    }
  }

  /** For a negative rate the interest is negative and the payment positive. */
  lemma ExceedsNegativeInterest(m: real, principal: real, r: real, q: real)
    requires r < 0.0 && 0.0 < q < 1.0 && m * (q - 1.0) == principal * r * q
    ensures principal > 0.0 ==> m > principal * r
  {
    if principal > 0.0 {
      MulPositive(principal, -r);
      MulPositive(principal * -r, q);
      assert m * (1.0 - q) == principal * -r * q;
      assert m * (1.0 - q) > 0.0 * (1.0 - q);
      CancelPositive(m, 0.0, 1.0 - q);
    }
  }

  /** The same payment without dividing by `r`: `m * (1 + q + ... + q^(n-1)) == P * q^n`. */
  lemma PaymentAsGeomSum(principal: real, r: real, n: nat)
    requires r > -1.0 && r != 0.0 && n >= 1
    ensures GeomSum(1.0 + r, n) >= 1.0
    ensures Payment(principal, r, n) * GeomSum(1.0 + r, n) == principal * Pow(1.0 + r, n)
  {
    GeomSumClosed(1.0 + r, n);
    GeomSumAtLeastOne(1.0 + r, n);
    PaymentEquation(principal, r, n);
    CancelRate(Payment(principal, r, n), principal, r, Pow(1.0 + r, n), GeomSum(1.0 + r, n));
  }

  lemma CancelRate(m: real, p: real, r: real, a: real, g: real)
    requires r != 0.0 && a - 1.0 == (1.0 + r - 1.0) * g && m * (a - 1.0) == p * r * a
    ensures m * g == p * a
  {
    assert (m * g) * r == (p * a) * r;
  }

  /** `q1^n * (1 + ... + q2^(n-1)) < q2^n * (1 + ... + q1^(n-1))` for `0 < q1 < q2`. */
  lemma {:induction false} CrossedGeomSums(q1: real, q2: real, n: nat)
    requires 0.0 < q1 < q2 && n >= 1
    ensures Pow(q1, n) * GeomSum(q2, n) < Pow(q2, n) * GeomSum(q1, n)
  {
    if n > 1 {
      CrossedGeomSums(q1, q2, n - 1);
    } else {
      assert Pow(q1, 0) == Pow(q2, 0) == 1.0 && GeomSum(q1, 0) == GeomSum(q2, 0) == 0.0;
    }
    PowBaseIncreasing(q1, q2, n);
    CrossStep(q1, q2, Pow(q1, n - 1), Pow(q2, n - 1), GeomSum(q1, n - 1), GeomSum(q2, n - 1),
              Pow(q1, n), Pow(q2, n), GeomSum(q1, n), GeomSum(q2, n));
  }

  lemma CrossStep(q1: real, q2: real, x1: real, x2: real, g1: real, g2: real,
                  x1': real, x2': real, g1': real, g2': real)
    requires q1 > 0.0 && q2 > 0.0 && x1 * g2 <= x2 * g1
    requires x1' == q1 * x1 && x2' == q2 * x2 && g1' == q1 * g1 + 1.0 && g2' == q2 * g2 + 1.0
    requires x1' < x2'
    ensures x1' * g2' < x2' * g1'
  {
    MulPositive(q1, q2);
    assert (q1 * q2) * (x1 * g2) <= (q1 * q2) * (x2 * g1);
    assert x1' * g2' == (q1 * q2) * (x1 * g2) + x1';
    assert x2' * g1' == (q1 * q2) * (x2 * g1) + x2';
  }

  /** A higher rate means a higher fixed payment (for a positive principal). */
  lemma PaymentIncreasingInRate(principal: real, r1: real, r2: real, n: nat)
    requires principal > 0.0 && -1.0 < r1 < r2 && r1 != 0.0 && r2 != 0.0 && n >= 1
    ensures Payment(principal, r1, n) < Payment(principal, r2, n)
  {
    PaymentAsGeomSum(principal, r1, n);
    PaymentAsGeomSum(principal, r2, n);
    CrossedGeomSums(1.0 + r1, 1.0 + r2, n);
    RatioOrdered(Payment(principal, r1, n), Payment(principal, r2, n), principal,
                 Pow(1.0 + r1, n), Pow(1.0 + r2, n), GeomSum(1.0 + r1, n), GeomSum(1.0 + r2, n));
  }

  lemma RatioOrdered(m1: real, m2: real, p: real, a: real, b: real, s1: real, s2: real)
    requires p > 0.0 && s1 > 0.0 && s2 > 0.0
    requires m1 * s1 == p * a && m2 * s2 == p * b && a * s2 < b * s1
    ensures m1 < m2
  {
    MulPositive(s1, s2);
    MulStrictlyIncreasing(p, a * s2, b * s1);
    assert m1 * (s1 * s2) == p * (a * s2) by { assert m1 * (s1 * s2) == (m1 * s1) * s2; }
    assert m2 * (s1 * s2) == p * (b * s1) by { assert m2 * (s1 * s2) == (m2 * s2) * s1; }
    CancelPositive(m2, m1, s1 * s2);
  }
}
