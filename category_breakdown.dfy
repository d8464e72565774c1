/**
 * The category pie chart (src/components/net-worth/category-breakdown.tsx):
 * the entries with a positive amount, in their order, as (name, value)
 * slices; nothing is drawn when no entry is positive.
 */
module CategoryBreakdown {
  import opened Wrappers
  import opened Types
  import opened Sums
  import opened Grouping
  import opened NetWorthHook
  import opened NetWorthPage

  datatype Slice = Slice(name: string, value: real)

  function SliceValue(slice: Slice): real { slice.value }

  /** `item => item.amount > 0`. */
  predicate IsPositive(row: CategoryTotal)
  {
    row.amount > 0.0
  }

  /** `.map(item => ({ name: item.category, value: item.amount }))`. */
  function Slices(rows: seq<CategoryTotal>): (r: seq<Slice>)
    ensures |r| == |rows|
    ensures forall i :: 0 <= i < |rows| ==> r[i].name == rows[i].category && r[i].value == rows[i].amount
  {
    if |rows| == 0 then [] else [Slice(rows[0].category, rows[0].amount)] + Slices(rows[1..])
  }

  /** The chart's data, or nothing when no entry is positive. */
  function ChartData(data: seq<CategoryTotal>): (r: Option<seq<Slice>>)
    ensures r.None? <==> forall i :: 0 <= i < |data| ==> !IsPositive(data[i])
    ensures r.Some? ==> 0 < |r.value| <= |data|
  {
    var kept := Filter(data, IsPositive);
    if |kept| == 0 then
      assert forall i :: 0 <= i < |data| ==> !IsPositive(data[i]) by {
        FilterKeeps(data, IsPositive);
      }
      None
    else
      assert kept[0] in kept;
      Some(Slices(kept))
  }

  /**
   * The slices are the positive entries, in their order: each slice is a
   * positive entry renamed, and every positive entry has its slice.
   */
  lemma ChartDataShape(data: seq<CategoryTotal>)
    requires ChartData(data).Some?
    ensures ChartData(data).value == Slices(Filter(data, IsPositive))
    ensures forall s :: s in ChartData(data).value ==> s.value > 0.0 && CategoryTotal(s.name, s.value) in data
    ensures forall row :: row in data && IsPositive(row) ==> Slice(row.category, row.amount) in ChartData(data).value
  {
    var kept := Filter(data, IsPositive);
    var slices := Slices(kept);
    forall s | s in slices
      ensures s.value > 0.0 && CategoryTotal(s.name, s.value) in data
    {
      var i :| 0 <= i < |slices| && slices[i] == s;
      assert kept[i] in kept;
    }
    FilterKeeps(data, IsPositive);
    forall row | row in data && IsPositive(row)
      ensures Slice(row.category, row.amount) in slices
    {
      var i :| 0 <= i < |kept| && kept[i] == row;
      assert slices[i] == Slice(row.category, row.amount);
    }
  }

  lemma {:induction false} SlicesSum(rows: seq<CategoryTotal>)
    ensures Sum(Slices(rows), SliceValue) == Sum(rows, RowAmount)
  {
    if |rows| > 0 {
      SlicesSum(rows[1..]);
      assert Slices(rows)[1..] == Slices(rows[1..]);
    }
  }

  /**
   * With no negative entry the chart leaves out only zeros: the slices add
   * up to all the entries, and no chart means the entries add up to 0.
   */
  lemma ChartKeepsTotal(data: seq<CategoryTotal>)
    requires forall row :: row in data ==> row.amount >= 0.0
    ensures ChartData(data).None? ==> Sum(data, RowAmount) == 0.0
    ensures ChartData(data).Some? ==> Sum(ChartData(data).value, SliceValue) == Sum(data, RowAmount)
  {
    var kept := Filter(data, IsPositive);
    SumFilterSplit(data, IsPositive, RowAmount);
    DroppedZero(data);
    if |kept| == 0 {
      assert Sum(kept, RowAmount) == 0.0;
    } else {
      assert ChartData(data).value == Slices(kept);
      SlicesSum(kept);
    }
  }

  /** The entries the chart leaves out are all 0 when none is negative. */
  lemma DroppedZero(data: seq<CategoryTotal>)
    requires forall row :: row in data ==> row.amount >= 0.0
    ensures Sum(Filter(data, Not(IsPositive)), RowAmount) == 0.0
  {
    var dropped := Filter(data, Not(IsPositive));
    forall row | row in dropped
      ensures RowAmount(row) <= 0.0 && RowAmount(row) >= 0.0
    {
      assert Not(IsPositive)(row);
    }
    SumAtMost(dropped, RowAmount, 0.0);
    SumNonNegative(dropped, RowAmount);
  }

  /**
   * The asset chart on the net-worth page: with no negative asset its
   * slices add up to the total assets, and it is missing only when they
   * add up to 0.
   */
  lemma AssetChartTotal(assets: seq<Asset>)
    requires forall a :: a in assets ==> a.amount >= 0.0
    ensures ChartData(AssetsByCategory(assets)).None? ==> TotalAssets(assets) == 0.0
    ensures ChartData(AssetsByCategory(assets)).Some? ==>
      Sum(ChartData(AssetsByCategory(assets)).value, SliceValue) == TotalAssets(assets)
  {
    var rows := AssetsByCategory(assets);
    forall row | row in rows
      ensures row.amount >= 0.0
    {
      var i :| 0 <= i < |rows| && rows[i] == row;
      var c := AssetCategoryOrder()[i];
      SumNonNegative(Filter(assets, KeyIs(AssetCategoryOf, c)), AssetAmount);
    }
    ChartKeepsTotal(rows);
    AssetBreakdownTotal(assets);
  }
}
