/**
 * The dashboard's investment overview
 * (src/components/dashboard/investment-performance.tsx): the total invested
 * and the three largest holdings with their share of it.
 */
module InvestmentPerformance {
  import opened Wrappers
  import opened Types
  import opened Sums
  import opened Sorting
  import opened Lists
  import opened Holdings

  /** The holdings by value, largest first: a sorted copy. */
  function ByValue(investments: seq<Investment>): (r: seq<Investment>)
    ensures multiset(r) == multiset(investments) && |r| == |investments|
  {
    SortDownBy(investments, Value)
  }

  /** `.slice(0, 3)` of the sorted copy. */
  function Top(investments: seq<Investment>): (top: seq<Investment>)
    ensures |top| <= 3
    ensures |top| == if |investments| < 3 then |investments| else 3
  {
    Take(ByValue(investments), 3)
  }

  /**
   * The top holdings begin the list by value, so together with the ones
   * left out they are all the holdings, and none left out is worth more
   * than one selected.
   */
  lemma TopIsLargest(investments: seq<Investment>)
    ensures var sorted := ByValue(investments);
      Top(investments) == sorted[..|Top(investments)|]
    ensures multiset(Top(investments)) + multiset(ByValue(investments)[|Top(investments)|..]) == multiset(investments)
    ensures forall x, y :: x in Top(investments) && y in ByValue(investments)[|Top(investments)|..] ==> Value(y) <= Value(x)
  {
    var sorted := ByValue(investments);
    var top := Top(investments);
    var n := |top|;
    assert top == sorted[..n];
    assert sorted == sorted[..n] + sorted[n..];
    SortDownBySorted(investments, Value);
    forall x, y | x in top && y in sorted[n..]
      ensures Value(y) <= Value(x)
    {
      var i :| 0 <= i < n && sorted[..n][i] == x;
      var j :| 0 <= j < |sorted| - n && sorted[n..][j] == y;
      assert sorted[i] == x && sorted[n + j] == y;
    }
  }

  /** One line of the list: the holding, its value and its share of the total. */
  datatype Holding = Holding(investment: Investment, value: real, percentage: Option<real>)

  /**
   * `(value / totalInvested) * 100`; with a zero total JavaScript shows NaN
   * or Infinity, and the model has no share.
   */
  function HoldingOf(inv: Investment, total: real): (h: Holding)
    ensures h.investment == inv && h.value == Value(inv)
    ensures h.percentage.Some? <==> total != 0.0
    ensures h.percentage.Some? ==> h.percentage.value * total == h.value * 100.0
  {
    Holding(inv, Value(inv), if total == 0.0 then None else Some(Value(inv) / total * 100.0))
  }

  /** The list under "Top Holdings"; `None` when it is not rendered. */
  function TopHoldings(investments: seq<Investment>): (r: Option<seq<Holding>>)
    ensures r.None? <==> |investments| == 0
    ensures r.Some? ==> |r.value| == |Top(investments)|
    ensures r.Some? ==> forall i :: 0 <= i < |r.value| ==> r.value[i] == HoldingOf(Top(investments)[i], TotalInvested(investments))
  {
    var top := Top(investments);
    if |top| == 0 then None
    else Some(seq(|top|, i requires 0 <= i < |top| => HoldingOf(top[i], TotalInvested(investments))))
  }
}
