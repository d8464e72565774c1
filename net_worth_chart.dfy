/**
 * The net-worth history chart (src/components/net-worth/net-worth-chart.tsx):
 * one point per history row, in order, with the liabilities drawn below
 * the axis; nothing is drawn for an empty history.
 */
module NetWorthChart {
  import opened Wrappers
  import opened Types

  datatype ChartPoint = ChartPoint(date: string, assets: real, liabilities: real, netWorth: real)

  /** `({ date, assets: total_assets, liabilities: -total_liabilities, netWorth: net_worth })`. */
  function PointOf(row: NetWorthHistory): ChartPoint
  {
    ChartPoint(row.date, row.totalAssets, -row.totalLiabilities, row.netWorth)
  }

  function Series(history: seq<NetWorthHistory>): (r: Option<seq<ChartPoint>>)
    ensures r.None? <==> |history| == 0
    ensures r.Some? ==> |r.value| == |history|
    ensures r.Some? ==> forall i :: 0 <= i < |history| ==>
      && r.value[i].date == history[i].date
      && r.value[i].assets == history[i].totalAssets
      && r.value[i].liabilities == -history[i].totalLiabilities
      && r.value[i].netWorth == history[i].netWorth
  {
    if |history| == 0 then None
    else Some(seq(|history|, i requires 0 <= i < |history| => PointOf(history[i])))
  }

  /** A row whose net worth is its assets minus its liabilities. */
  predicate Consistent(row: NetWorthHistory)
  {
    row.netWorth == row.totalAssets - row.totalLiabilities
  }

  /**
   * For consistent rows the two areas meet at the net worth line: each
   * point's assets plus its (negated) liabilities is its net worth, and
   * for non-negative liabilities the liability area never rises above the axis.
   */
  lemma SeriesStacks(history: seq<NetWorthHistory>)
    requires |history| > 0
    requires forall row :: row in history ==> Consistent(row)
    ensures forall p :: p in Series(history).value ==> p.assets + p.liabilities == p.netWorth
    ensures forall i :: 0 <= i < |history| && history[i].totalLiabilities >= 0.0 ==>
      Series(history).value[i].liabilities <= 0.0
  {
    var points := Series(history).value;
    forall p | p in points
      ensures p.assets + p.liabilities == p.netWorth
    {
      var i :| 0 <= i < |points| && points[i] == p;
      assert history[i] in history;
    }
  }
}
