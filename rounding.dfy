/** `Math.ceil` on exact numbers. */
module Rounding {

  /** `Math.ceil(x)`: the least whole number not below x. */
  function Ceil(x: real): (n: int)
    ensures n as real >= x && (n - 1) as real < x
  {
    -((-x).Floor)
  }

  /**
   * A whole number k not below c / s, for a positive s, is a number of
   * steps of size s that reaches c; one step fewer falls short when k is
   * the ceiling.
   */
  lemma CoverBounds(k: int, c: real, s: real)
    requires s > 0.0 && k as real >= c / s && (k - 1) as real < c / s
    ensures k as real * s >= c && (k - 1) as real * s < c
  {
    var q := c / s;
    assert q * s == c;
    assert k as real * s >= q * s;
    assert (k - 1) as real * s < q * s;
  }
}
