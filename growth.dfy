/** `calculateGrowthRate` (src/lib/utils.ts). */
module Growth {

  function Abs(x: real): real
  {
    if x < 0.0 then -x else x
  }

  /**
   * The percentage change from `previous` to `current`, relative to the
   * size of `previous`; 0 when `previous` is 0. Its sign is the sign of
   * the change, whatever the sign of `previous`.
   */
  function GrowthRate(current: real, previous: real): (rate: real)
    ensures previous == 0.0 ==> rate == 0.0
    ensures previous != 0.0 ==> (rate > 0.0 <==> current > previous)
    ensures previous != 0.0 ==> (rate < 0.0 <==> current < previous)
  {
    if previous == 0.0 then 0.0 else (current - previous) / Abs(previous) * 100.0
  }

  /** The rate is invertible: from it and `previous` the current value is recovered. */
  lemma GrowthRateInverse(current: real, previous: real)
    requires previous != 0.0
    ensures current == previous + GrowthRate(current, previous) * Abs(previous) / 100.0
  {
  }
}
