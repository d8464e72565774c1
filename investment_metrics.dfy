/**
 * The summary cards (src/components/investments/investment-metrics.tsx):
 * total invested, the average holding and the largest holding.
 */
module InvestmentMetrics {
  import opened Types
  import opened Sums
  import opened Holdings

  /** `totalInvested / (investments.length || 1)`: an empty list divides by 1. */
  function Average(investments: seq<Investment>): (avg: real)
    ensures |investments| == 0 ==> avg == 0.0
    ensures |investments| > 0 ==> avg * |investments| as real == TotalInvested(investments)
  {
    TotalInvested(investments) / (if |investments| == 0 then 1 else |investments|) as real
  }

  /**
   * `reduce((max, inv) => value > max ? value : max, acc)`: the running
   * maximum, left to right, starting from `acc`.
   */
  function LargestFrom(investments: seq<Investment>, acc: real): (m: real)
    ensures m >= acc
    ensures forall inv :: inv in investments ==> Value(inv) <= m
    ensures m == acc || exists inv :: inv in investments && Value(inv) == m
  {
    if |investments| == 0 then acc
    else LargestFrom(investments[1..], if Value(investments[0]) > acc then Value(investments[0]) else acc)
  }

  /**
   * The largest holding as the card computes it: the reduce starts from 0,
   * so it is 0 when every value is negative or there are none.
   */
  function Largest(investments: seq<Investment>): (m: real)
    ensures m >= 0.0
    ensures forall inv :: inv in investments ==> Value(inv) <= m
    ensures m == 0.0 || exists inv :: inv in investments && Value(inv) == m
  {
    LargestFrom(investments, 0.0)
  }

  /** The average never exceeds the largest holding. */
  lemma AverageAtMostLargest(investments: seq<Investment>)
    ensures Average(investments) <= Largest(investments)
  {
    if |investments| > 0 {
      TotalAtMostLargest(investments);
      BelowAfterDivision(TotalInvested(investments), Largest(investments), |investments| as real, Average(investments));
    }
  }

  lemma TotalAtMostLargest(investments: seq<Investment>)
    ensures TotalInvested(investments) <= Largest(investments) * |investments| as real
  {
    SumAtMost(investments, Value, Largest(investments));
  }

  lemma BelowAfterDivision(total: real, m: real, n: real, avg: real)
    requires n > 0.0 && total <= m * n && avg * n == total
    ensures avg <= m
  {
  }
}
