/**
 * `generateFinancialInsights` (src/lib/utils.ts): the asset amounts
 * accumulated by category, one concentration message per category above
 * half of the total, one growth message from the last two history rows,
 * and one refinancing message per liability with a rate above 10%. The
 * messages are modelled by what they report; their wording and the
 * `toFixed` rounding are not modelled.
 */
module FinancialInsights {
  import opened Wrappers
  import opened Types
  import opened Sums
  import opened Grouping
  import opened Growth
  import opened NetWorthHook
  import opened NetWorthPage

  datatype Insight =
    /** A category holding more than half of the assets; no percentage when the total is 0 (Infinity in JavaScript). */
    | Concentrated(category: AssetCategory, caption: string, percentage: Option<real>)
    | Grew(rate: real)
    | Decreased(rate: real)
    | Refinance(name: string, rate: real)

  /** The accumulated `assetsByCategory` record, keys in the order first met. */
  function AssetGroups(assets: seq<Asset>): seq<(AssetCategory, real)>
  {
    GroupBy(assets, AssetCategoryOf, AssetAmount)
  }

  /** `percentage > 50` for `percentage = amount / total * 100`; for a zero total the division gives ±Infinity or NaN, above 50 only for a positive amount. */
  predicate Hot(amount: real, total: real)
  {
    if total == 0.0 then amount > 0.0 else amount / total * 100.0 > 50.0
  }

  /** For a positive total a category is reported exactly when it holds more than half of it. */
  lemma HotMeaning(amount: real, total: real)
    requires total > 0.0
    ensures Hot(amount, total) <==> 2.0 * amount > total
  {
    var p := amount / total * 100.0;
    assert p * total == amount * 100.0;
  }

  /** The first `forEach` callback: the message for one category, if any. */
  function EntryInsight(entry: (AssetCategory, real), total: real): (r: seq<Insight>)
    ensures r != [] <==> Hot(entry.1, total)
    ensures r != [] ==> |r| == 1 && r[0].Concentrated? && r[0].category == entry.0 && r[0].caption == AssetLabel(entry.0)
    ensures r != [] ==> (r[0].percentage.None? <==> total == 0.0)
    ensures r != [] && total != 0.0 ==> r[0].percentage.value * total == entry.1 * 100.0
  {
    if !Hot(entry.1, total) then []
    else if total == 0.0 then [Concentrated(entry.0, AssetLabel(entry.0), None)]
    else [Concentrated(entry.0, AssetLabel(entry.0), Some(entry.1 / total * 100.0))]
  }

  /** The first `forEach`: the messages, in the order of the categories. */
  function Concentration(entries: seq<(AssetCategory, real)>, total: real): (r: seq<Insight>)
    ensures |r| <= |entries|
    ensures forall x :: x in r ==> x.Concentrated?
  {
    if |entries| == 0 then []
    else Concentration(entries[..|entries| - 1], total) + EntryInsight(entries[|entries| - 1], total)
  }

  /** A liability with a truthy rate above 10: `l.interest_rate && l.interest_rate > 10`. */
  predicate HighInterest(l: Liability)
  {
    l.interestRate.Some? && l.interestRate.value != 0.0 && l.interestRate.value > 10.0
  }

  /** The second `forEach` callback. */
  function RefinanceInsight(l: Liability): (r: Insight)
    requires HighInterest(l)
    ensures r.Refinance? && r.name == l.name && r.rate == l.interestRate.value && r.rate > 10.0
  {
    Refinance(l.name, l.interestRate.value)
  }

  /** The second `forEach`, over the high-interest liabilities. */
  function Refinances(high: seq<Liability>): (r: seq<Insight>)
    requires forall l :: l in high ==> HighInterest(l)
    ensures |r| == |high|
    ensures forall i :: 0 <= i < |high| ==> r[i] == RefinanceInsight(high[i])
  {
    if |high| == 0 then []
    else Refinances(high[..|high| - 1]) + [RefinanceInsight(high[|high| - 1])]
  }

  /**
   * The growth message: none unless there are at least two history rows
   * (`history` may be null); otherwise from the growth rate of the last
   * row over the one before, none when that rate is 0.
   */
  function GrowthInsight(history: Option<seq<NetWorthHistory>>): (r: seq<Insight>)
    ensures |r| <= 1
    ensures r != [] <==> (history.Some? && |history.value| >= 2 &&
      GrowthRate(history.value[|history.value| - 1].netWorth, history.value[|history.value| - 2].netWorth) != 0.0)
    ensures r != [] ==> var h := history.value;
      var rate := GrowthRate(h[|h| - 1].netWorth, h[|h| - 2].netWorth);
      r[0] == if rate > 0.0 then Grew(rate) else Decreased(-rate)
  {
    match history
    case None => []
    case Some(h) =>
      if |h| < 2 then []
      else
        var rate := GrowthRate(h[|h| - 1].netWorth, h[|h| - 2].netWorth);
        if rate > 0.0 then [Grew(rate)] else if rate < 0.0 then [Decreased(Abs(rate))] else []
  }

  /**
   * With at least two rows there is a growth message exactly when the
   * previous net worth is not 0 and the latest differs from it; it reports
   * growth exactly when the latest is higher, and its rate is positive.
   */
  lemma GrowthMessage(history: seq<NetWorthHistory>)
    requires |history| >= 2
    ensures var latest, previous := history[|history| - 1].netWorth, history[|history| - 2].netWorth;
      var r := GrowthInsight(Some(history));
      && (r != [] <==> previous != 0.0 && latest != previous)
      && (r != [] ==> (r[0].Grew? <==> latest > previous))
      && (r != [] && r[0].Grew? ==> r[0].rate > 0.0)
      && (r != [] && r[0].Decreased? ==> r[0].rate > 0.0)
  {
  }

  /** What `generateFinancialInsights` returns. */
  function InsightsOf(assets: seq<Asset>, liabilities: seq<Liability>, history: Option<seq<NetWorthHistory>>): seq<Insight>
  {
    var groups := AssetGroups(assets);
    var high := Filter(liabilities, HighInterest);
    Concentration(groups, Sum(groups, Amount)) + GrowthInsight(history) + Refinances(high)
  }

  /** The `reduce` into `assetsByCategory`. */
  method GroupAssets(assets: seq<Asset>) returns (acc: seq<(AssetCategory, real)>)
    ensures acc == AssetGroups(assets)
  {
    acc := Accumulate(assets, AssetCategoryOf, AssetAmount);
  }

  /** `Object.values(assetsByCategory).reduce((a, b) => a + b, 0)`. */
  method TotalOf(groups: seq<(AssetCategory, real)>) returns (total: real)
    ensures total == Sum(groups, Amount)
  {
    total := 0.0;
    var i := 0;
    while i < |groups|
      invariant 0 <= i <= |groups|
      invariant total == Sum(groups[..i], Amount)
    {
      assert groups[..i + 1] == groups[..i] + [groups[i]];
      SumSnoc(groups[..i], groups[i], Amount);
      total := total + groups[i].1;
      i := i + 1;
    }
    assert groups[..|groups|] == groups;
  }

  /** The first `forEach`, pushing each category's message onto `insights`. */
  method ConcentrationLoop(groups: seq<(AssetCategory, real)>, total: real) returns (insights: seq<Insight>)
    ensures insights == Concentration(groups, total)
  {
    insights := [];
    var j := 0;
    while j < |groups|
      invariant 0 <= j <= |groups|
      invariant insights == Concentration(groups[..j], total)
    {
      assert groups[..j + 1][..j] == groups[..j];
      insights := insights + EntryInsight(groups[j], total);
      j := j + 1;
    }
    assert groups[..|groups|] == groups;
  }

  /** The `filter(...).forEach(...)` over the liabilities, pushing after what is already in `insights`. */
  method RefinanceLoop(insights0: seq<Insight>, liabilities: seq<Liability>) returns (insights: seq<Insight>)
    ensures insights == insights0 + Refinances(Filter(liabilities, HighInterest))
  {
    var high := Filter(liabilities, HighInterest);
    insights := insights0;
    var k := 0;
    while k < |high|
      invariant 0 <= k <= |high|
      invariant insights == insights0 + Refinances(high[..k])
    {
      assert high[..k + 1][..k] == high[..k];
      insights := insights + [RefinanceInsight(high[k])];
      k := k + 1;
    }
    assert high[..|high|] == high;
  }

  /** The whole function: the three passes, one after the other. */
  method Insights(assets: seq<Asset>, liabilities: seq<Liability>, history: Option<seq<NetWorthHistory>>)
    returns (insights: seq<Insight>)
    ensures insights == InsightsOf(assets, liabilities, history)
  {
    var groups := GroupAssets(assets);
    var total := TotalOf(groups);
    insights := ConcentrationLoop(groups, total);
    insights := insights + GrowthInsight(history);
    insights := RefinanceLoop(insights, liabilities);
  }

  /** The total the shares are taken of is the total of the assets. */
  lemma GroupsTotal(assets: seq<Asset>)
    ensures Sum(AssetGroups(assets), Amount) == TotalAssets(assets)
  {
    GroupBySum(assets, AssetCategoryOf, AssetAmount);
  }

  /** Each concentration message names a category whose entry is above the threshold. */
  lemma {:induction false} ConcentrationSource(entries: seq<(AssetCategory, real)>, total: real)
    ensures forall x :: x in Concentration(entries, total) ==>
      exists e :: e in entries && e.0 == x.category && Hot(e.1, total)
  {
    if |entries| > 0 {
      var init, last := entries[..|entries| - 1], entries[|entries| - 1];
      ConcentrationSource(init, total);
      forall x | x in Concentration(entries, total)
        ensures exists e :: e in entries && e.0 == x.category && Hot(e.1, total)
      {
        if x in Concentration(init, total) {
          var e :| e in init && e.0 == x.category && Hot(e.1, total);
          assert e in entries;
        } else {
          assert last in entries;
        }
      }
    }
  }

  lemma {:induction false} ConcentrationNone(entries: seq<(AssetCategory, real)>, total: real)
    requires forall i :: 0 <= i < |entries| ==> !Hot(entries[i].1, total)
    ensures Concentration(entries, total) == []
  {
    if |entries| > 0 {
      ConcentrationNone(entries[..|entries| - 1], total);
    }
  }

  /** When no two entries are both above the threshold there is at most one message. */
  lemma {:induction false} ConcentrationAtMostOne(entries: seq<(AssetCategory, real)>, total: real)
    requires forall i, j :: 0 <= i < j < |entries| ==> !(Hot(entries[i].1, total) && Hot(entries[j].1, total))
    ensures |Concentration(entries, total)| <= 1
  {
    if |entries| > 0 {
      var n := |entries| - 1;
      var init := entries[..n];
      ConcentrationAtMostOne(init, total);
      if Hot(entries[n].1, total) {
        ConcentrationNone(init, total);
      }
    }
  }

  /**
   * With no negative asset at most one category can hold more than half
   * of the total, so there is at most one concentration message.
   */
  lemma AtMostOneConcentrated(assets: seq<Asset>)
    requires forall a :: a in assets ==> a.amount >= 0.0
    ensures |Concentration(AssetGroups(assets), Sum(AssetGroups(assets), Amount))| <= 1
  {
    var groups := AssetGroups(assets);
    var total := Sum(groups, Amount);
    GroupsNonNegative(assets);
    forall i, j | 0 <= i < j < |groups|
      ensures !(Hot(groups[i].1, total) && Hot(groups[j].1, total))
    {
      SumAtLeastTwoTerms(groups, i, j, Amount);
      if total == 0.0 {
        SumAtLeastTerm(groups, i, Amount);
        SumAtLeastTerm(groups, j, Amount);
      } else {
        HotMeaning(groups[i].1, total);
        HotMeaning(groups[j].1, total);
      }
    }
    ConcentrationAtMostOne(groups, total);
  }

  lemma GroupsNonNegative(assets: seq<Asset>)
    requires forall a :: a in assets ==> a.amount >= 0.0
    ensures forall g :: g in AssetGroups(assets) ==> g.1 >= 0.0
    ensures Sum(AssetGroups(assets), Amount) >= 0.0
  {
    var groups := AssetGroups(assets);
    GroupByTotals(assets, AssetCategoryOf, AssetAmount);
    forall g | g in groups
      ensures g.1 >= 0.0
    {
      var i :| 0 <= i < |groups| && groups[i] == g;
      SumNonNegative(Filter(assets, KeyIs(AssetCategoryOf, g.0)), AssetAmount);
    }
    SumNonNegative(groups, Amount);
  }

  /** The rank of a message's kind: concentration, then growth, then refinancing. */
  function Rank(x: Insight): nat
  {
    match x
    case Concentrated(_, _, _) => 0
    case Grew(_) => 1
    case Decreased(_) => 1
    case Refinance(_, _) => 2
  }

  /** Three blocks of the three kinds, concatenated, are in rank order. */
  lemma BlocksInOrder(a: seq<Insight>, g: seq<Insight>, b: seq<Insight>)
    requires forall x :: x in a ==> Rank(x) == 0
    requires forall x :: x in g ==> Rank(x) == 1
    requires forall x :: x in b ==> Rank(x) == 2
    ensures forall i, j :: 0 <= i < j < |a + g + b| ==> Rank((a + g + b)[i]) <= Rank((a + g + b)[j])
  {
    var r := a + g + b;
    forall i, j | 0 <= i < j < |r|
      ensures Rank(r[i]) <= Rank(r[j])
    {
      if i < |a| {
        assert r[i] in a;
      } else if i < |a| + |g| {
        assert r[i] == g[i - |a|] && r[i] in g;
        if j >= |a| + |g| {
          assert r[j] == b[j - |a| - |g|] && r[j] in b;
        } else {
          assert r[j] == g[j - |a|] && r[j] in g;
        }
      } else {
        assert r[i] == b[i - |a| - |g|] && r[j] == b[j - |a| - |g|];
        assert r[i] in b && r[j] in b;
      }
    }
  }

  lemma RefinancesRank(high: seq<Liability>)
    requires forall l :: l in high ==> HighInterest(l)
    ensures forall x :: x in Refinances(high) ==> Rank(x) == 2
  {
    var b := Refinances(high);
    forall x | x in b
      ensures Rank(x) == 2
    {
      var k :| 0 <= k < |b| && b[k] == x;
    }
  }

  lemma GrowthRank(history: Option<seq<NetWorthHistory>>)
    ensures forall x :: x in GrowthInsight(history) ==> Rank(x) == 1
  {
  }

  /** The messages come in three blocks: concentration first, then growth, then refinancing. */
  lemma InsightsOrder(assets: seq<Asset>, liabilities: seq<Liability>, history: Option<seq<NetWorthHistory>>)
    ensures var r := InsightsOf(assets, liabilities, history);
      forall i, j :: 0 <= i < j < |r| ==> Rank(r[i]) <= Rank(r[j])
  {
    var groups := AssetGroups(assets);
    var high := Filter(liabilities, HighInterest);
    var a := Concentration(groups, Sum(groups, Amount));
    var g := GrowthInsight(history);
    var b := Refinances(high);
    assert InsightsOf(assets, liabilities, history) == a + g + b;
    RefinancesRank(high);
    GrowthRank(history);
    BlocksInOrder(a, g, b);
  }

  /** The last block names every high-interest liability once, in input order. */
  lemma RefinanceBlock(assets: seq<Asset>, liabilities: seq<Liability>, history: Option<seq<NetWorthHistory>>)
    ensures var high := Filter(liabilities, HighInterest);
      var r := InsightsOf(assets, liabilities, history);
      |r| >= |high| && r[|r| - |high|..] == Refinances(high)
  {
    var groups := AssetGroups(assets);
    var high := Filter(liabilities, HighInterest);
    var front := Concentration(groups, Sum(groups, Amount)) + GrowthInsight(history);
    var b := Refinances(high);
    assert InsightsOf(assets, liabilities, history) == front + b;
    assert (front + b)[|front + b| - |b|..] == b;
  }
}
