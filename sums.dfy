/**
 * Sums and filters over sequences: the `filter(...)` and
 * `reduce((sum, x) => sum + f(x), 0)` idioms that every component uses,
 * with the algebra the other modules rely on.
 */
module Sums {

  /** `s.reduce((sum, x) => sum + f(x), 0)`, in exact arithmetic. */
  function Sum<T>(s: seq<T>, f: T -> real): real
  {
    if |s| == 0 then 0.0 else f(s[0]) + Sum(s[1..], f)
  }

  /** `s.filter(p)`: the elements satisfying `p`, in their original order. */
  function Filter<T>(s: seq<T>, p: T -> bool): (r: seq<T>)
    ensures |r| <= |s|
    ensures forall x :: x in r ==> x in s && p(x)
  {
    if |s| == 0 then [] else (if p(s[0]) then [s[0]] else []) + Filter(s[1..], p)
  }

  lemma {:induction false} SumAppend<T>(a: seq<T>, b: seq<T>, f: T -> real)
    ensures Sum(a + b, f) == Sum(a, f) + Sum(b, f)
  {
    if |a| == 0 {
      assert a + b == b;
    } else {
      assert (a + b)[1..] == a[1..] + b;
      SumAppend(a[1..], b, f);
    }
  }

  /** Summing the elements added at the end one at a time, as a loop does. */
  lemma SumSnoc<T>(s: seq<T>, x: T, f: T -> real)
    ensures Sum(s + [x], f) == Sum(s, f) + f(x)
  {
    SumAppend(s, [x], f);
  }

  lemma {:induction false} FilterAppend<T>(a: seq<T>, b: seq<T>, p: T -> bool)
    ensures Filter(a + b, p) == Filter(a, p) + Filter(b, p)
  {
    if |a| == 0 {
      assert a + b == b;
    } else {
      assert (a + b)[0] == a[0];
      assert (a + b)[1..] == a[1..] + b;
      FilterAppend(a[1..], b, p);
    }
  }

  /** Removing the element at index `i` leaves the multiset minus that element. */
  lemma RemoveAt<T>(s: seq<T>, i: nat)
    requires i < |s|
    ensures s == s[..i] + [s[i]] + s[i+1..]
    ensures multiset(s[..i] + s[i+1..]) == multiset(s) - multiset{s[i]}
  {
    assert s == s[..i] + [s[i]] + s[i+1..];
  }

  /** Taking the element at index `i` out of a sum. */
  lemma SumRemoveAt<T>(s: seq<T>, i: nat, f: T -> real)
    requires i < |s|
    ensures Sum(s, f) == f(s[i]) + Sum(s[..i] + s[i+1..], f)
  {
    var t := [s[i]] + s[i+1..];
    assert s == s[..i] + t;
    SumAppend(s[..i], t, f);
    assert t[1..] == s[i+1..];
    SumAppend(s[..i], s[i+1..], f);
  }

  /** A reordering does not change a sum (exact arithmetic is commutative). */
  lemma {:induction false} SumPermutation<T>(a: seq<T>, b: seq<T>, f: T -> real)
    requires multiset(a) == multiset(b)
    ensures Sum(a, f) == Sum(b, f)
    decreases |a|
  {
    if |a| == 0 {
      assert |b| == |multiset(b)| == 0;
    } else {
      var x := a[0];
      assert x in multiset(b);
      var i :| 0 <= i < |b| && b[i] == x;
      RemoveAt(b, i);
      assert multiset(a[1..]) == multiset(a) - multiset{x} by {
        assert a == [x] + a[1..];
      }
      SumPermutation(a[1..], b[..i] + b[i+1..], f);
      SumRemoveAt(b, i, f);
    }
  }

  /** `x => !p(x)`. */
  function Not<T>(p: T -> bool): T -> bool
  {
    x => !p(x)
  }

  /** Splitting by a predicate: the part that satisfies it and the rest add up to the whole. */
  lemma {:induction false} SumFilterSplit<T>(s: seq<T>, p: T -> bool, f: T -> real)
    ensures Sum(Filter(s, p), f) + Sum(Filter(s, Not(p)), f) == Sum(s, f)
  {
    if |s| > 0 {
      SumFilterSplit(s[1..], p, f);
      SumAppend(if p(s[0]) then [s[0]] else [], Filter(s[1..], p), f);
      SumAppend(if !p(s[0]) then [s[0]] else [], Filter(s[1..], Not(p)), f);
    }
  }

  /** `x => p(x) || q(x)`. */
  function Either<T>(p: T -> bool, q: T -> bool): T -> bool
  {
    x => p(x) || q(x)
  }

  /** Filtering by a disjunction of two exclusive predicates adds their sums. */
  lemma {:induction false} SumFilterOr<T>(s: seq<T>, p: T -> bool, q: T -> bool, f: T -> real)
    requires forall x :: x in s ==> !(p(x) && q(x))
    ensures Sum(Filter(s, Either(p, q)), f) == Sum(Filter(s, p), f) + Sum(Filter(s, q), f)
  {
    if |s| > 0 {
      SumFilterOr(s[1..], p, q, f);
      SumAppend(if p(s[0]) || q(s[0]) then [s[0]] else [], Filter(s[1..], Either(p, q)), f);
      SumAppend(if p(s[0]) then [s[0]] else [], Filter(s[1..], p), f);
      SumAppend(if q(s[0]) then [s[0]] else [], Filter(s[1..], q), f);
    }
  }

  /** Filtering by a predicate that holds everywhere keeps everything. */
  lemma {:induction false} FilterAll<T>(s: seq<T>, p: T -> bool)
    requires forall x :: x in s ==> p(x)
    ensures Filter(s, p) == s
  {
    if |s| > 0 {
      FilterAll(s[1..], p);
      assert s == [s[0]] + s[1..];
    }
  }

  /** Filtering by a predicate that holds nowhere keeps nothing. */
  lemma {:induction false} FilterNone<T>(s: seq<T>, p: T -> bool)
    requires forall x :: x in s ==> !p(x)
    ensures Filter(s, p) == []
  {
    if |s| > 0 {
      FilterNone(s[1..], p);
    }
  }

  lemma {:induction false} SumNonNegative<T>(s: seq<T>, f: T -> real)
    requires forall x :: x in s ==> f(x) >= 0.0
    ensures Sum(s, f) >= 0.0
  {
    if |s| > 0 {
      SumNonNegative(s[1..], f);
    }
  }

  /** With non-negative terms, a filtered sum never exceeds the whole sum. */
  lemma SumFilterAtMost<T>(s: seq<T>, p: T -> bool, f: T -> real)
    requires forall x :: x in s ==> f(x) >= 0.0
    ensures Sum(Filter(s, p), f) <= Sum(s, f)
  {
    SumFilterSplit(s, p, f);
    SumNonNegative(Filter(s, Not(p)), f);
  }

  /** Every term of a sum is bounded by its total. */
  lemma {:induction false} SumAtLeastTerm<T>(s: seq<T>, i: nat, f: T -> real)
    requires i < |s|
    requires forall x :: x in s ==> f(x) >= 0.0
    ensures f(s[i]) <= Sum(s, f)
  {
    if i == 0 {
      SumNonNegative(s[1..], f);
    } else {
      SumAtLeastTerm(s[1..], i - 1, f);
    }
  }

  /** Two different terms of a non-negative sum are together bounded by its total. */
  lemma {:induction false} SumAtLeastTwoTerms<T>(s: seq<T>, i: nat, j: nat, f: T -> real)
    requires i < j < |s|
    requires forall x :: x in s ==> f(x) >= 0.0
    ensures f(s[i]) + f(s[j]) <= Sum(s, f)
  {
    if i == 0 {
      SumAtLeastTerm(s[1..], j - 1, f);
    } else {
      SumAtLeastTwoTerms(s[1..], i - 1, j - 1, f);
    }
  }

  /** Every element satisfying the predicate is kept. */
  lemma {:induction false} FilterKeeps<T>(s: seq<T>, p: T -> bool)
    ensures forall x :: x in s && p(x) ==> x in Filter(s, p)
  {
    if |s| > 0 {
      FilterKeeps(s[1..], p);
      assert forall x :: x in s ==> x == s[0] || x in s[1..];
    }
  }

  /** A sum of terms each above `c` exceeds `c` times their number. */
  lemma {:induction false} SumAbove<T>(s: seq<T>, f: T -> real, c: real)
    requires |s| > 0
    requires forall x :: x in s ==> f(x) > c
    ensures Sum(s, f) > c * |s| as real
  {
    if |s| > 1 {
      SumAbove(s[1..], f, c);
      assert c * |s| as real == c + c * |s[1..]| as real;
    }
  }

  /** Term by term no larger gives a sum no larger. */
  lemma {:induction false} SumMonotone<T>(s: seq<T>, f: T -> real, g: T -> real)
    requires forall x :: x in s ==> f(x) <= g(x)
    ensures Sum(s, f) <= Sum(s, g)
  {
    if |s| > 0 {
      SumMonotone(s[1..], f, g);
    }
  }

  /** Term by term equal gives equal sums. */
  lemma SumEqual<T>(s: seq<T>, f: T -> real, g: T -> real)
    requires forall x :: x in s ==> f(x) == g(x)
    ensures Sum(s, f) == Sum(s, g)
  {
    SumMonotone(s, f, g);
    SumMonotone(s, g, f);
  }

  /** A sum of terms each at most `c` is at most `c` times their number. */
  lemma {:induction false} SumAtMost<T>(s: seq<T>, f: T -> real, c: real)
    requires forall x :: x in s ==> f(x) <= c
    ensures Sum(s, f) <= c * |s| as real
  {
    if |s| > 0 {
      SumAtMost(s[1..], f, c);
      assert c * |s| as real == c + c * |s[1..]| as real;
    }
  }

  /** A filtered sum, one element at a time. */
  lemma SumFilterCons<T>(s: seq<T>, p: T -> bool, f: T -> real)
    requires |s| > 0
    ensures Sum(Filter(s, p), f) == (if p(s[0]) then f(s[0]) else 0.0) + Sum(Filter(s[1..], p), f)
  {
    SumAppend(if p(s[0]) then [s[0]] else [], Filter(s[1..], p), f);
  }

  /** Filtering by two predicates that agree on the elements gives the same result. */
  lemma {:induction false} FilterCongruent<T>(s: seq<T>, p: T -> bool, q: T -> bool)
    requires forall x :: x in s ==> p(x) == q(x)
    ensures Filter(s, p) == Filter(s, q)
  {
    if |s| > 0 {
      FilterCongruent(s[1..], p, q);
    }
  }
}
