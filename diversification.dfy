/**
 * The diversification analysis (src/components/investments/diversification-analysis.tsx):
 * holdings grouped by `symbol || name`, each group's share of the total,
 * the groups by share, largest first, and the groups above 20%.
 */
module Diversification {
  import opened Wrappers
  import opened Types
  import opened Sums
  import opened Grouping
  import opened Sorting
  import opened Holdings

  datatype Allocation = Allocation(name: string, value: real, percentage: real)

  function Percentage(a: Allocation): real
  {
    a.percentage
  }

  /** `item.percentage > 20`. */
  predicate IsHigh(a: Allocation)
  {
    a.percentage > 20.0
  }

  /** Each group's entry with `value / totalValue * 100` as its percentage. */
  function ToAllocations(groups: seq<(string, real)>, total: real): (r: seq<Allocation>)
    requires total != 0.0
    ensures |r| == |groups|
    ensures forall i :: 0 <= i < |r| ==>
      r[i].name == groups[i].0 && r[i].value == groups[i].1 && r[i].percentage * total == groups[i].1 * 100.0
  {
    if |groups| == 0 then []
    else [Allocation(groups[0].0, groups[0].1, groups[0].1 / total * 100.0)] + ToAllocations(groups[1..], total)
  }

  /** The percentages add up to the groups' total over `total`, times 100. */
  lemma {:induction false} AllocationsSum(groups: seq<(string, real)>, total: real)
    requires total != 0.0
    ensures Sum(ToAllocations(groups, total), Percentage) == Sum(groups, Amount) / total * 100.0
  {
    if |groups| > 0 {
      AllocationsSum(groups[1..], total);
      ScaledSum(groups[0].1, Sum(groups[1..], Amount), total);
    }
  }

  lemma ScaledSum(a: real, b: real, t: real)
    requires t != 0.0
    ensures a / t * 100.0 + b / t * 100.0 == (a + b) / t * 100.0
  {
  }

  /** What the card shows: all allocations by share, largest first, and the ones above 20%. */
  datatype Analysis = Analysis(sorted: seq<Allocation>, highConcentration: seq<Allocation>)

  /**
   * The analysis of `investments`. With holdings whose values add up to 0
   * every percentage is NaN in JavaScript; the model has no analysis then.
   */
  function Analyse(investments: seq<Investment>): (a: Option<Analysis>)
    ensures a.None? <==> |investments| > 0 && TotalInvested(investments) == 0.0
    ensures a.Some? && |investments| == 0 ==> a.value.sorted == [] && a.value.highConcentration == []
  {
    var total := TotalInvested(investments);
    if |investments| == 0 then Some(Analysis([], []))
    else if total == 0.0 then None
    else
      var sorted := SortDownBy(ToAllocations(Grouped(investments), total), Percentage);
      Some(Analysis(sorted, Filter(sorted, IsHigh)))
  }

  /**
   * For holdings with a non-zero total: one allocation per group in
   * descending order of share, the shares adding up to 100, and the
   * high-concentration list holding exactly the allocations above 20%.
   */
  lemma AnalysisShape(investments: seq<Investment>)
    requires TotalInvested(investments) != 0.0
    ensures var a := Analyse(investments).value;
      && multiset(a.sorted) == multiset(ToAllocations(Grouped(investments), TotalInvested(investments)))
      && SortedDownBy(a.sorted, Percentage)
      && Sum(a.sorted, Percentage) == 100.0
      && (forall x :: x in a.highConcentration <==> x in a.sorted && IsHigh(x))
  {
    var total := TotalInvested(investments);
    assert |investments| > 0;
    var allocs := ToAllocations(Grouped(investments), total);
    var sorted := SortDownBy(allocs, Percentage);
    assert Analyse(investments) == Some(Analysis(sorted, Filter(sorted, IsHigh)));
    SortDownBySorted(allocs, Percentage);
    SumPermutation(sorted, allocs, Percentage);
    AllocationsSum(Grouped(investments), total);
    GroupBySum(investments, Key, Value);
    assert Sum(Grouped(investments), Amount) == total;
    SelfShare(total);
    FilterKeeps(sorted, IsHigh);
  }

  lemma SelfShare(t: real)
    requires t != 0.0
    ensures t / t * 100.0 == 100.0
  {
  }

  /** With non-negative holdings at most four groups can each hold more than 20%. */
  lemma AtMostFourHigh(investments: seq<Investment>)
    requires NonNegative(investments) && TotalInvested(investments) != 0.0
    ensures |Analyse(investments).value.highConcentration| <= 4
  {
    var total := TotalInvested(investments);
    ValuesNonNegative(investments);
    SumNonNegative(investments, Value);
    GroupsNonNegative(investments);
    var allocs := ToAllocations(Grouped(investments), total);
    AllocationsNonNegative(Grouped(investments), total);
    AnalysisShape(investments);
    var a := Analyse(investments).value;
    assert forall x :: x in a.sorted ==> Percentage(x) >= 0.0 by {
      forall x | x in a.sorted
        ensures Percentage(x) >= 0.0
      {
        assert x in multiset(allocs);
      }
    }
    assert a.highConcentration == Filter(a.sorted, IsHigh);
    SumFilterAtMost(a.sorted, IsHigh, Percentage);
    FewHigh(a.highConcentration);
  }

  lemma {:induction false} AllocationsNonNegative(groups: seq<(string, real)>, total: real)
    requires total > 0.0
    requires forall i :: 0 <= i < |groups| ==> groups[i].1 >= 0.0
    ensures forall x :: x in ToAllocations(groups, total) ==> Percentage(x) >= 0.0
  {
    if |groups| > 0 {
      AllocationsNonNegative(groups[1..], total);
      NonNegativeShare(groups[0].1, total);
    }
  }

  lemma NonNegativeShare(v: real, total: real)
    requires total > 0.0 && v >= 0.0
    ensures v / total * 100.0 >= 0.0
  {
  }

  lemma FewHigh(high: seq<Allocation>)
    requires Sum(high, Percentage) <= 100.0
    requires forall x :: x in high ==> IsHigh(x)
    ensures |high| <= 4
  {
    if |high| > 0 {
      SumAbove(high, Percentage, 20.0);
    }
  }
}
