/**
 * The accumulation idiom `s.reduce((acc, x) => { acc[key(x)] = (acc[key(x)] || 0) + val(x); ... }, {})`
 * shared by the diversification analysis, the portfolio breakdown, the
 * budget insights and the financial insights. The accumulator object is a
 * list of (key, total) pairs in the order the keys were first met, which
 * is the order `Object.entries` lists string keys in.
 */
module Grouping {
  import opened Sums

  /** The total held by one pair. */
  function Amount<K>(p: (K, real)): real
  {
    p.1
  }

  /** The keys of the pairs, in order. */
  function KeysOf<K>(g: seq<(K, real)>): (keys: seq<K>)
    ensures |keys| == |g|
    ensures forall i :: 0 <= i < |g| ==> keys[i] == g[i].0
  {
    if |g| == 0 then [] else [g[0].0] + KeysOf(g[1..])
  }

  predicate DistinctKeys<K(==)>(g: seq<(K, real)>)
  {
    forall i, j :: 0 <= i < j < |g| ==> KeysOf(g)[i] != KeysOf(g)[j]
  }

  /** `acc[k]`, or 0 when the key is absent (`acc[k] || 0`). */
  function Lookup<K(==)>(g: seq<(K, real)>, k: K): real
  {
    if |g| == 0 then 0.0 else if g[0].0 == k then g[0].1 else Lookup(g[1..], k)
  }

  /** `acc[k] = (acc[k] || 0) + v`: an existing key's total grows, a new key goes at the end. */
  function AddTo<K(==)>(g: seq<(K, real)>, k: K, v: real): (r: seq<(K, real)>)
    ensures |r| == if k in KeysOf(g) then |g| else |g| + 1
  {
    if |g| == 0 then [(k, v)]
    else if g[0].0 == k then [(k, g[0].1 + v)] + g[1..]
    else [g[0]] + AddTo(g[1..], k, v)
  }

  lemma {:induction false} AddToKeys<K>(g: seq<(K, real)>, k: K, v: real)
    ensures KeysOf(AddTo(g, k, v)) == if k in KeysOf(g) then KeysOf(g) else KeysOf(g) + [k]
  {
    if |g| > 0 && g[0].0 != k {
      AddToKeys(g[1..], k, v);
      assert KeysOf(g) == [g[0].0] + KeysOf(g[1..]);
    }
  }

  lemma {:induction false} AddToLookup<K>(g: seq<(K, real)>, k: K, v: real, k': K)
    ensures Lookup(AddTo(g, k, v), k') == Lookup(g, k') + if k' == k then v else 0.0
  {
    if |g| > 0 && g[0].0 != k {
      AddToLookup(g[1..], k, v, k');
    }
  }

  lemma {:induction false} AddToSum<K>(g: seq<(K, real)>, k: K, v: real)
    ensures Sum(AddTo(g, k, v), Amount) == Sum(g, Amount) + v
  {
    if |g| > 0 {
      if g[0].0 == k {
        assert ([(k, g[0].1 + v)] + g[1..])[1..] == g[1..];
      } else {
        AddToSum(g[1..], k, v);
        assert ([g[0]] + AddTo(g[1..], k, v))[1..] == AddTo(g[1..], k, v);
      }
    }
  }

  lemma AddToDistinct<K>(g: seq<(K, real)>, k: K, v: real)
    requires DistinctKeys(g)
    ensures DistinctKeys(AddTo(g, k, v))
  {
    AddToKeys(g, k, v);
  }

  /** In a list with distinct keys the pair at index i holds the lookup of its key. */
  lemma {:induction false} LookupAt<K>(g: seq<(K, real)>, i: nat)
    requires DistinctKeys(g) && i < |g|
    ensures Lookup(g, g[i].0) == g[i].1
  {
    if i > 0 {
      assert KeysOf(g)[0] != KeysOf(g)[i];
      DistinctTail(g);
      LookupAt(g[1..], i - 1);
    }
  }

  lemma DistinctTail<K>(g: seq<(K, real)>)
    requires DistinctKeys(g) && |g| > 0
    ensures DistinctKeys(g[1..])
  {
    forall a, b | 0 <= a < b < |g| - 1
      ensures KeysOf(g[1..])[a] != KeysOf(g[1..])[b]
    {
      assert KeysOf(g[1..])[a] == KeysOf(g)[a + 1] && KeysOf(g[1..])[b] == KeysOf(g)[b + 1];
    }
  }

  /** In a list with distinct keys every pair occurs once. */
  lemma {:induction false} DistinctOnce<K>(g: seq<(K, real)>, a: nat)
    requires DistinctKeys(g) && a < |g|
    ensures multiset(g)[g[a]] == 1
  {
    assert g == [g[0]] + g[1..];
    if a == 0 {
      forall k | 0 <= k < |g| - 1
        ensures g[1..][k] != g[0]
      {
        assert KeysOf(g)[0] != KeysOf(g)[k + 1];
      }
    } else {
      assert KeysOf(g)[0] != KeysOf(g)[a];
      DistinctTail(g);
      DistinctOnce(g[1..], a - 1);
    }
  }

  lemma TwiceCounted<T>(s: seq<T>, i: nat, j: nat)
    requires i < j < |s| && s[i] == s[j]
    ensures multiset(s)[s[i]] >= 2
  {
    assert s == s[..j] + [s[j]] + s[j + 1..];
    assert s[i] in s[..j];
  }

  /** Reordering a list with distinct keys keeps the keys distinct. */
  lemma PermutationDistinct<K>(g: seq<(K, real)>, h: seq<(K, real)>)
    requires DistinctKeys(g) && multiset(h) == multiset(g)
    ensures DistinctKeys(h)
  {
    forall i, j | 0 <= i < j < |h|
      ensures KeysOf(h)[i] != KeysOf(h)[j]
    {
      if KeysOf(h)[i] == KeysOf(h)[j] {
        assert h[i] in multiset(g) && h[j] in multiset(g);
        var a :| 0 <= a < |g| && g[a] == h[i];
        var b :| 0 <= b < |g| && g[b] == h[j];
        assert KeysOf(g)[a] == KeysOf(g)[b];
        DistinctOnce(g, a);
        TwiceCounted(h, i, j);
      }
    }
  }

  /** `x => key(x) === k`. */
  function KeyIs<T, K(==)>(key: T -> K, k: K): T -> bool
  {
    x => key(x) == k
  }

  /** The accumulator after the whole reduce: a left fold of AddTo. */
  function GroupBy<T, K(==)>(s: seq<T>, key: T -> K, val: T -> real): seq<(K, real)>
  {
    if |s| == 0 then []
    else AddTo(GroupBy(s[..|s| - 1], key, val), key(s[|s| - 1]), val(s[|s| - 1]))
  }

  /** The reduce itself: one AddTo per element, left to right. */
  method Accumulate<T, K(==)>(s: seq<T>, key: T -> K, val: T -> real) returns (acc: seq<(K, real)>)
    ensures acc == GroupBy(s, key, val)
  {
    acc := [];
    var i := 0;
    while i < |s|
      invariant 0 <= i <= |s|
      invariant acc == GroupBy(s[..i], key, val)
    {
      assert s[..i + 1][..i] == s[..i];
      acc := AddTo(acc, key(s[i]), val(s[i]));
      i := i + 1;
    }
    assert s[..|s|] == s;
  }

  /** Each key's total is the sum of `val` over the elements with that key. */
  lemma {:induction false} GroupByLookup<T, K>(s: seq<T>, key: T -> K, val: T -> real, k: K)
    ensures Lookup(GroupBy(s, key, val), k) == Sum(Filter(s, KeyIs(key, k)), val)
  {
    if |s| > 0 {
      var init, last := s[..|s| - 1], s[|s| - 1];
      GroupByLookup(init, key, val, k);
      AddToLookup(GroupBy(init, key, val), key(last), val(last), k);
      assert s == init + [last];
      FilterAppend(init, [last], KeyIs(key, k));
      SumAppend(Filter(init, KeyIs(key, k)), Filter([last], KeyIs(key, k)), val);
    }
  }

  /** The keys are distinct, every element's key is among them, and each comes from an element. */
  lemma {:induction false} GroupByKeys<T, K>(s: seq<T>, key: T -> K, val: T -> real)
    ensures DistinctKeys(GroupBy(s, key, val))
    ensures forall x :: x in s ==> key(x) in KeysOf(GroupBy(s, key, val))
    ensures forall k :: k in KeysOf(GroupBy(s, key, val)) ==> exists x :: x in s && key(x) == k
  {
    if |s| > 0 {
      var init, last := s[..|s| - 1], s[|s| - 1];
      GroupByKeys(init, key, val);
      AddToKeys(GroupBy(init, key, val), key(last), val(last));
      AddToDistinct(GroupBy(init, key, val), key(last), val(last));
      assert s == init + [last];
      forall k | k in KeysOf(GroupBy(s, key, val))
        ensures exists x :: x in s && key(x) == k
      {
        if k !in KeysOf(GroupBy(init, key, val)) {
          assert key(last) == k;
        }
      }
    }
  }

  /** The totals add up to the sum over all elements. */
  lemma {:induction false} GroupBySum<T, K>(s: seq<T>, key: T -> K, val: T -> real)
    ensures Sum(GroupBy(s, key, val), Amount) == Sum(s, val)
  {
    if |s| > 0 {
      var init, last := s[..|s| - 1], s[|s| - 1];
      GroupBySum(init, key, val);
      AddToSum(GroupBy(init, key, val), key(last), val(last));
      assert s == init + [last];
      SumSnoc(init, last, val);
    }
  }

  /** Each pair of the result holds the sum over the elements with its key. */
  lemma GroupByTotals<T, K>(s: seq<T>, key: T -> K, val: T -> real)
    ensures forall i :: 0 <= i < |GroupBy(s, key, val)| ==>
      GroupBy(s, key, val)[i].1 == Sum(Filter(s, KeyIs(key, GroupBy(s, key, val)[i].0)), val)
  {
    var g := GroupBy(s, key, val);
    GroupByKeys(s, key, val);
    forall i | 0 <= i < |g|
      ensures g[i].1 == Sum(Filter(s, KeyIs(key, g[i].0)), val)
    {
      LookupAt(g, i);
      GroupByLookup(s, key, val, g[i].0);
    }
  }
}
