/**
 * The array idioms the components and hooks share: `find`, `slice(0, k)`
 * and `map(x => match ? row : x)`.
 */
module Lists {
  import opened Wrappers
  import opened Sums

  /** `s.findIndex(p)`, as `undefined` when no element qualifies: the earliest match. */
  function FindFirst<T>(s: seq<T>, p: T -> bool): (i: Option<nat>)
    ensures i.Some? ==> i.value < |s| && p(s[i.value])
    ensures i.Some? ==> forall j :: 0 <= j < i.value ==> !p(s[j])
    ensures i.None? <==> forall j :: 0 <= j < |s| ==> !p(s[j])
  {
    if |s| == 0 then None
    else if p(s[0]) then Some(0)
    else match FindFirst(s[1..], p)
      case None => None
      case Some(k) => Some(k + 1)
  }

  /** `s.find(p)`: the earliest element satisfying `p`, if any. */
  function Find<T>(s: seq<T>, p: T -> bool): (x: Option<T>)
    ensures x.Some? ==> p(x.value) && x.value in s
    ensures x.Some? ==> FindFirst(s, p).Some? && x.value == s[FindFirst(s, p).value]
    ensures x.None? <==> forall j :: 0 <= j < |s| ==> !p(s[j])
  {
    match FindFirst(s, p)
    case None => None
    case Some(i) => Some(s[i])
  }

  /** Two predicates, the first implying the second: the second matches no later than the first. */
  lemma FindFirstWeaker<T>(s: seq<T>, p: T -> bool, q: T -> bool)
    requires forall x :: p(x) ==> q(x)
    requires FindFirst(s, p).Some?
    ensures FindFirst(s, q).Some? && FindFirst(s, q).value <= FindFirst(s, p).value
  {
    var i := FindFirst(s, p).value;
    assert q(s[i]);
  }

  /** `s.slice(0, k)`: the first k elements, or all of them when there are fewer. */
  function Take<T>(s: seq<T>, k: nat): (r: seq<T>)
    ensures |r| == if |s| < k then |s| else k
    ensures forall i :: 0 <= i < |r| ==> r[i] == s[i]
  {
    if |s| <= k then s else s[..k]
  }

  /** `s.map(x => matches(x) ? row : x)`: every matching element replaced by `row`. */
  function ReplaceWhere<T>(s: seq<T>, matches: T -> bool, row: T): (r: seq<T>)
    ensures |r| == |s|
    ensures forall i :: 0 <= i < |s| ==> r[i] == if matches(s[i]) then row else s[i]
  {
    if |s| == 0 then [] else [if matches(s[0]) then row else s[0]] + ReplaceWhere(s[1..], matches, row)
  }

  /** `s.filter(x => !matches(x))`: the elements that do not match, in order. */
  function RemoveWhere<T>(s: seq<T>, matches: T -> bool): (r: seq<T>)
    ensures |r| <= |s|
    ensures forall x :: x in r ==> x in s && !matches(x)
    ensures forall x :: x in s && !matches(x) ==> x in r
  {
    if |s| == 0 then []
    else (if matches(s[0]) then [] else [s[0]]) + RemoveWhere(s[1..], matches)
  }

  /**
   * Removal keeps order: removing from a concatenation removes from each
   * part and keeps the parts in order, so a kept element never moves past
   * another one.
   */
  lemma {:induction false} RemoveWhereAppend<T>(a: seq<T>, b: seq<T>, matches: T -> bool)
    ensures RemoveWhere(a + b, matches) == RemoveWhere(a, matches) + RemoveWhere(b, matches)
  {
    if |a| > 0 {
      RemoveWhereAppend(a[1..], b, matches);
      assert (a + b)[1..] == a[1..] + b;
    } else {
      assert a + b == b;
    }
  }

  /** The same for every way of cutting s in two. */
  lemma RemoveWhereSplits<T>(s: seq<T>, matches: T -> bool)
    ensures forall a, b :: s == a + b ==> RemoveWhere(s, matches) == RemoveWhere(a, matches) + RemoveWhere(b, matches)
  {
    forall a, b | s == a + b
      ensures RemoveWhere(s, matches) == RemoveWhere(a, matches) + RemoveWhere(b, matches)
    {
      RemoveWhereAppend(a, b, matches);
    }
  }

  /** Removing the matches is filtering by the negated predicate. */
  lemma {:induction false} RemoveWhereIsFilter<T>(s: seq<T>, matches: T -> bool)
    ensures RemoveWhere(s, matches) == Filter(s, Not(matches))
  {
    if |s| > 0 {
      RemoveWhereIsFilter(s[1..], matches);
    }
  }

  /** Removing what nothing matches changes nothing. */
  lemma {:induction false} RemoveWhereAbsent<T>(s: seq<T>, matches: T -> bool)
    requires forall i :: 0 <= i < |s| ==> !matches(s[i])
    ensures RemoveWhere(s, matches) == s
  {
    if |s| > 0 {
      RemoveWhereAbsent(s[1..], matches);
      assert [s[0]] + s[1..] == s;
    }
  }

  /** The total after a removal is the old total less the total of what was removed. */
  lemma {:induction false} SumRemoveWhere<T>(s: seq<T>, matches: T -> bool, f: T -> real)
    ensures Sum(s, f) == Sum(RemoveWhere(s, matches), f) + Sum(Filter(s, matches), f)
  {
    if |s| > 0 {
      SumRemoveWhere(s[1..], matches, f);
      SumAppend(if matches(s[0]) then [] else [s[0]], RemoveWhere(s[1..], matches), f);
      SumAppend(if matches(s[0]) then [s[0]] else [], Filter(s[1..], matches), f);
    }
  }

  /** Replacing where nothing matches changes nothing. */
  lemma {:induction false} ReplaceWhereAbsent<T>(s: seq<T>, matches: T -> bool, row: T)
    requires forall i :: 0 <= i < |s| ==> !matches(s[i])
    ensures ReplaceWhere(s, matches, row) == s
  {
  }

  /** Replacing the single matching element at index i is an update at i, and shifts the total by the difference. */
  lemma ReplaceWhereOnly<T>(s: seq<T>, matches: T -> bool, row: T, i: nat, f: T -> real)
    requires i < |s| && matches(s[i])
    requires forall j :: 0 <= j < |s| && j != i ==> !matches(s[j])
    ensures ReplaceWhere(s, matches, row) == s[i := row]
    ensures Sum(ReplaceWhere(s, matches, row), f) == Sum(s, f) - f(s[i]) + f(row)
  {
    var t := s[i := row];
    assert ReplaceWhere(s, matches, row) == t;
    SumRemoveAt(s, i, f);
    SumRemoveAt(t, i, f);
    assert t[..i] + t[i+1..] == s[..i] + s[i+1..];
  }
}
