/**
 * The portfolio allocation chart (src/components/investments/portfolio-breakdown.tsx):
 * one slice per `symbol || name` group holding the group's value, largest
 * first; nothing is rendered without holdings.
 */
module PortfolioBreakdown {
  import opened Wrappers
  import opened Types
  import opened Sums
  import opened Grouping
  import opened Sorting
  import opened Holdings

  /** The slices, largest value first; `None` when the component renders nothing. */
  function Slices(investments: seq<Investment>): (r: Option<seq<(string, real)>>)
    ensures r.None? <==> |investments| == 0
    ensures r.Some? ==> multiset(r.value) == multiset(Grouped(investments))
  {
    if |investments| == 0 then None else Some(SortDownBy(Grouped(investments), Amount))
  }

  /** The slices are in non-increasing order of value, one per key, and add up to the total invested. */
  lemma SlicesOrdered(investments: seq<Investment>)
    requires |investments| > 0
    ensures SortedDownBy(Slices(investments).value, Amount)
    ensures DistinctKeys(Slices(investments).value)
    ensures Sum(Slices(investments).value, Amount) == TotalInvested(investments)
  {
    var groups := Grouped(investments);
    var slices := Slices(investments).value;
    SortDownBySorted(groups, Amount);
    GroupByKeys(investments, Key, Value);
    PermutationDistinct(groups, slices);
    SumPermutation(slices, groups, Amount);
    GroupBySum(investments, Key, Value);
  }

  /** Each slice holds the sum of the values of the holdings with its key. */
  lemma SlicesTotals(investments: seq<Investment>)
    requires |investments| > 0
    ensures forall p :: p in Slices(investments).value ==> p.1 == Sum(Filter(investments, KeyIs(Key, p.0)), Value)
  {
    var groups := Grouped(investments);
    GroupByTotals(investments, Key, Value);
    forall p | p in Slices(investments).value
      ensures p.1 == Sum(Filter(investments, KeyIs(Key, p.0)), Value)
    {
      assert p in multiset(groups);
    }
  }

  /** Every holding's key has a slice. */
  lemma SlicesCover(investments: seq<Investment>)
    requires |investments| > 0
    ensures forall inv :: inv in investments ==> Key(inv) in KeysOf(Slices(investments).value)
  {
    var groups := Grouped(investments);
    var slices := Slices(investments).value;
    GroupByKeys(investments, Key, Value);
    forall inv | inv in investments
      ensures Key(inv) in KeysOf(slices)
    {
      var i :| 0 <= i < |groups| && KeysOf(groups)[i] == Key(inv);
      assert groups[i] in multiset(slices);
      var j :| 0 <= j < |slices| && slices[j] == groups[i];
      assert KeysOf(slices)[j] == Key(inv);
    }
  }
}
