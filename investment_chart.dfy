/**
 * The portfolio growth chart (src/components/investments/investment-chart.tsx):
 * a copy of the holdings sorted by purchase date, then one point per
 * holding carrying the running total of the values so far.
 */
module InvestmentChart {
  import opened Wrappers
  import opened Types
  import opened Sums
  import opened Sorting
  import opened Holdings

  datatype Point = Point(date: string, value: real)

  /**
   * `new Date(purchase_date).getTime()` as a function of the holding; date
   * parsing is not modelled, so `time` is a parameter.
   */
  function PurchaseTime(time: string -> real): Investment -> real
  {
    (inv: Investment) => time(inv.purchaseDate)
  }

  /** The holdings in chart order: a sorted copy, the caller's list keeps its order. */
  function ByDate(investments: seq<Investment>, time: string -> real): (r: seq<Investment>)
    ensures multiset(r) == multiset(investments) && |r| == |investments|
  {
    SortBy(investments, PurchaseTime(time))
  }

  /**
   * The points of the holdings `s`, in order: the last one carries the
   * last holding's date and the values of all of them added up.
   */
  function Points(s: seq<Investment>): (points: seq<Point>)
    ensures |points| == |s|
  {
    if |s| == 0 then []
    else Points(s[..|s| - 1]) + [Point(s[|s| - 1].purchaseDate, Sum(s, Value))]
  }

  /** What the chart renders: nothing without holdings, else the points of the holdings by date. */
  function ChartOf(investments: seq<Investment>, time: string -> real): (chart: Option<seq<Point>>)
    ensures chart.None? <==> |investments| == 0
  {
    if |investments| == 0 then None else Some(Points(ByDate(investments, time)))
  }

  /**
   * The `map` over the sorted copy with `runningTotal` carried from one
   * holding to the next.
   */
  method Chart(investments: seq<Investment>, time: string -> real) returns (chart: Option<seq<Point>>)
    ensures chart == ChartOf(investments, time)
  {
    var sorted := ByDate(investments, time);
    var points: seq<Point> := [];
    var runningTotal := 0.0;
    var i := 0;
    while i < |sorted|
      invariant 0 <= i <= |sorted|
      invariant runningTotal == Sum(sorted[..i], Value)
      invariant points == Points(sorted[..i])
    {
      runningTotal := runningTotal + Value(sorted[i]);
      PointsSnoc(sorted, i);
      points := points + [Point(sorted[i].purchaseDate, runningTotal)];
      i := i + 1;
    }
    assert sorted[..|sorted|] == sorted;
    if |investments| == 0 {
      return None;
    }
    chart := Some(points);
  }

  lemma PointsSnoc(s: seq<Investment>, i: nat)
    requires i < |s|
    ensures Sum(s[..i + 1], Value) == Sum(s[..i], Value) + Value(s[i])
    ensures Points(s[..i + 1]) == Points(s[..i]) + [Point(s[i].purchaseDate, Sum(s[..i + 1], Value))]
  {
    assert s[..i + 1] == s[..i] + [s[i]];
    SumSnoc(s[..i], s[i], Value);
    assert s[..i + 1][..i] == s[..i];
  }

  /** Point k carries the k-th holding's date and the values of the first k + 1 holdings added up. */
  lemma {:induction false} PointAt(s: seq<Investment>, k: nat)
    requires k < |s|
    ensures Points(s)[k] == Point(s[k].purchaseDate, Sum(s[..k + 1], Value))
  {
    var init := s[..|s| - 1];
    if k == |s| - 1 {
      assert s[..k + 1] == s;
    } else {
      assert Points(s)[k] == Points(init)[k];
      PointAt(init, k);
      PrefixOfPrefix(s, init, k);
    }
  }

  lemma PrefixOfPrefix(s: seq<Investment>, init: seq<Investment>, k: nat)
    requires |init| <= |s| && init == s[..|init|] && k < |init|
    ensures s[..k + 1] == init[..k + 1]
  {
    assert forall j :: 0 <= j <= k ==> s[j] == init[j];
  }

  /** One point per holding, and the last one is the total invested. */
  lemma LastPointIsTotal(investments: seq<Investment>, time: string -> real)
    requires |investments| > 0
    ensures |ChartOf(investments, time).value| == |investments|
    ensures ChartOf(investments, time).value[|investments| - 1].value == TotalInvested(investments)
  {
    var sorted := ByDate(investments, time);
    SumPermutation(sorted, investments, Value);
  }

  /** The points go forward in time. */
  lemma DatesInOrder(investments: seq<Investment>, time: string -> real)
    requires |investments| > 0
    ensures forall i, j :: 0 <= i < j < |investments| ==>
      time(ChartOf(investments, time).value[i].date) <= time(ChartOf(investments, time).value[j].date)
  {
    var sorted := ByDate(investments, time);
    SortBySorted(investments, PurchaseTime(time));
    forall i | 0 <= i < |sorted|
      ensures ChartOf(investments, time).value[i].date == sorted[i].purchaseDate
    {
      PointAt(sorted, i);
    }
  }

  /** With non-negative holdings the running total never falls. */
  lemma ValuesNeverFall(investments: seq<Investment>, time: string -> real)
    requires |investments| > 0 && NonNegative(investments)
    ensures forall i, j :: 0 <= i < j < |investments| ==>
      ChartOf(investments, time).value[i].value <= ChartOf(investments, time).value[j].value
  {
    var sorted := ByDate(investments, time);
    SortedNonNegative(investments, sorted);
    var points := ChartOf(investments, time).value;
    assert points == Points(sorted);
    forall i, j | 0 <= i < j < |investments|
      ensures points[i].value <= points[j].value
    {
      PointAt(sorted, i);
      PointAt(sorted, j);
      PrefixSumGrows(sorted, i, j);
    }
  }

  lemma SortedNonNegative(investments: seq<Investment>, sorted: seq<Investment>)
    requires NonNegative(investments) && multiset(sorted) == multiset(investments)
    ensures forall x :: x in sorted ==> Value(x) >= 0.0
  {
    ValuesNonNegative(investments);
    forall x | x in sorted
      ensures Value(x) >= 0.0
    {
      assert x in multiset(investments);
    }
  }

  /** With non-negative values a longer prefix has a sum at least as large. */
  lemma PrefixSumGrows(s: seq<Investment>, i: nat, j: nat)
    requires i < j < |s|
    requires forall x :: x in s ==> Value(x) >= 0.0
    ensures Sum(s[..i + 1], Value) <= Sum(s[..j + 1], Value)
  {
    assert s[..j + 1] == s[..i + 1] + s[i + 1..j + 1];
    SumAppend(s[..i + 1], s[i + 1..j + 1], Value);
    SumNonNegative(s[i + 1..j + 1], Value);
  }
}
