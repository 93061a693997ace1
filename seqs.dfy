/** Sequence helpers shared by the view-models: `Array.prototype.filter`, counting, and the
    subsequence relation that a filter result stands in to its input. */
module Seqs {

  /** `s.filter(p)`: the elements of `s` that satisfy `p`, in their original order. */
  function Filter<T>(s: seq<T>, p: T -> bool): (r: seq<T>)
    ensures |r| <= |s|
    ensures forall i :: 0 <= i < |r| ==> r[i] in s && p(r[i])
    ensures forall i :: 0 <= i < |s| && p(s[i]) ==> s[i] in r
    decreases |s|
  {
    if s == [] then []
    else if p(s[0]) then [s[0]] + Filter(s[1..], p)
    else Filter(s[1..], p)
  }

  /** `s.filter(p).length`. */
  function Count<T>(s: seq<T>, p: T -> bool): (n: nat)
    ensures n <= |s|
    decreases |s|
  {
    if s == [] then 0
    else (if p(s[0]) then 1 else 0) + Count(s[1..], p)
  }

  /** `r` is obtained from `s` by deleting elements, keeping the order of the rest. */
  predicate IsSubsequence<T(==)>(r: seq<T>, s: seq<T>)
    decreases |s|
  {
    if r == [] then true
    else if s == [] then false
    else (r[0] == s[0] && IsSubsequence(r[1..], s[1..])) || IsSubsequence(r, s[1..])
  }

  lemma {:induction false} FilterIsSubsequence<T>(s: seq<T>, p: T -> bool)
    ensures IsSubsequence(Filter(s, p), s)
    decreases |s|
  {
    if s != [] {
      FilterIsSubsequence(s[1..], p);
      if p(s[0]) {
        assert Filter(s, p)[1..] == Filter(s[1..], p);
      }
    }
  }

  /** Two chained filters keep exactly what one filter on the conjunction `r` keeps. */
  lemma {:induction false} FilterFilter<T>(s: seq<T>, p: T -> bool, q: T -> bool, r: T -> bool)
    requires forall i :: 0 <= i < |s| ==> r(s[i]) == (p(s[i]) && q(s[i]))
    ensures Filter(Filter(s, p), q) == Filter(s, r)
    decreases |s|
  {
    if s != [] {
      FilterFilter(s[1..], p, q, r);
      if p(s[0]) {
        assert Filter(s, p) == [s[0]] + Filter(s[1..], p);
        assert Filter(s, p)[1..] == Filter(s[1..], p);
      }
    }
  }

  /** Filters with predicates that agree on `s` keep the same elements. */
  lemma {:induction false} FilterAgree<T>(s: seq<T>, p: T -> bool, q: T -> bool)
    requires forall i :: 0 <= i < |s| ==> p(s[i]) == q(s[i])
    ensures Filter(s, p) == Filter(s, q)
    decreases |s|
  {
    if s != [] {
      FilterAgree(s[1..], p, q);
    }
  }

  /** A filter whose predicate holds everywhere returns its input. */
  lemma {:induction false} FilterAll<T>(s: seq<T>, p: T -> bool)
    requires forall i :: 0 <= i < |s| ==> p(s[i])
    ensures Filter(s, p) == s
    decreases |s|
  {
    if s != [] {
      FilterAll(s[1..], p);
    }
  }

  /** The number of kept elements is the length of the filter result. */
  lemma {:induction false} CountIsFilterLength<T>(s: seq<T>, p: T -> bool)
    ensures Count(s, p) == |Filter(s, p)|
    decreases |s|
  {
    if s != [] {
      CountIsFilterLength(s[1..], p);
    }
  }

  /** Counting is independent of the order of the elements. */
  lemma {:induction false} CountPermutation<T>(s: seq<T>, t: seq<T>, p: T -> bool)
    requires multiset(s) == multiset(t)
    ensures Count(s, p) == Count(t, p)
    decreases |s|
  {
    if s == [] {
      assert |t| == |multiset(t)| == 0;
    } else {
      var x := s[0];
      assert x in multiset(t) by { assert x in multiset(s); }
      var k :| 0 <= k < |t| && t[k] == x;
      MultisetRemoveAt(t, k);
      assert multiset(s[1..]) == multiset(s) - multiset{x} by { assert s == [x] + s[1..]; }
      CountPermutation(s[1..], t[..k] + t[k+1..], p);
      CountRemoveAt(t, k, p);
    }
  }

  lemma MultisetRemoveAt<T>(t: seq<T>, k: nat)
    requires k < |t|
    ensures multiset(t[..k] + t[k+1..]) == multiset(t) - multiset{t[k]}
  {
    assert t == t[..k] + [t[k]] + t[k+1..];
  }

  /** Removing the element at `k` lowers the count by that element's contribution. */
  lemma {:induction false} CountRemoveAt<T>(t: seq<T>, k: nat, p: T -> bool)
    requires k < |t|
    ensures Count(t, p) == (if p(t[k]) then 1 else 0) + Count(t[..k] + t[k+1..], p)
    decreases k
  {
    if k > 0 {
      CountRemoveAt(t[1..], k - 1, p);
      assert t[1..][..k-1] + t[1..][k..] == (t[..k] + t[k+1..])[1..];
    } else {
      assert t[..k] + t[k+1..] == t[1..];
    }
  }

  /** `s.reduce((acc, x) => acc + f(x), 0)`. */
  function Sum<T>(s: seq<T>, f: T -> real): real
    decreases |s|
  {
    if s == [] then 0.0 else f(s[0]) + Sum(s[1..], f)
  }

  /** A sum is independent of the order of the summands. */
  lemma {:induction false} SumPermutation<T>(s: seq<T>, t: seq<T>, f: T -> real)
    requires multiset(s) == multiset(t)
    ensures Sum(s, f) == Sum(t, f)
    decreases |s|
  {
    if s == [] {
      assert |t| == |multiset(t)| == 0;
    } else {
      var x := s[0];
      assert x in multiset(t) by { assert x in multiset(s); }
      var k :| 0 <= k < |t| && t[k] == x;
      MultisetRemoveAt(t, k);
      assert multiset(s[1..]) == multiset(s) - multiset{x} by { assert s == [x] + s[1..]; }
      SumPermutation(s[1..], t[..k] + t[k+1..], f);
      SumRemoveAt(t, k, f);
    }
  }

  lemma {:induction false} SumRemoveAt<T>(t: seq<T>, k: nat, f: T -> real)
    requires k < |t|
    ensures Sum(t, f) == f(t[k]) + Sum(t[..k] + t[k+1..], f)
    decreases k
  {
    if k > 0 {
      SumRemoveAt(t[1..], k - 1, f);
      assert t[1..][..k-1] + t[1..][k..] == (t[..k] + t[k+1..])[1..];
    } else {
      assert t[..k] + t[k+1..] == t[1..];
    }
  }

  /** Summands in `[lo, hi]` give a sum in `[lo * n, hi * n]`. */
  lemma {:induction false} SumBounds<T>(s: seq<T>, f: T -> real, lo: real, hi: real)
    requires forall i :: 0 <= i < |s| ==> lo <= f(s[i]) <= hi
    ensures lo * |s| as real <= Sum(s, f) <= hi * |s| as real
    decreases |s|
  {
    if s != [] {
      SumBounds(s[1..], f, lo, hi);
    }
  }

  /** `Sum` read from the other end: appending one summand adds it. */
  lemma {:induction false} SumAppend<T>(s: seq<T>, x: T, f: T -> real)
    ensures Sum(s + [x], f) == Sum(s, f) + f(x)
    decreases |s|
  {
    if s != [] {
      SumAppend(s[1..], x, f);
      assert (s + [x])[1..] == s[1..] + [x];
    }
  }

  // -----------------------------------------------------------------------------------------
  // Grouping by a key, as `s.reduce((acc, x) => { acc[key(x)] ... }, {})` builds it: the keys
  // in the order they are first seen, with a per-key count and a per-key sum.

  /** The distinct keys of `s`, in order of first occurrence. */
  function FirstSeen<T, K(==)>(s: seq<T>, key: T -> K): seq<K>
    decreases |s|
  {
    if s == [] then []
    else
      var o := FirstSeen(s[..|s| - 1], key);
      var k := key(s[|s| - 1]);
      if k in o then o else o + [k]
  }

  /** `FirstSeen` lists every key of `s`, each once, and nothing else. */
  lemma {:induction false} FirstSeenFacts<T, K>(s: seq<T>, key: T -> K)
    ensures var r := FirstSeen(s, key);
      && (forall i, j :: 0 <= i < j < |r| ==> r[i] != r[j])
      && (forall i :: 0 <= i < |s| ==> key(s[i]) in r)
      && (forall j :: 0 <= j < |r| ==> exists i :: 0 <= i < |s| && key(s[i]) == r[j])
    decreases |s|
  {
    if s != [] {
      var p := s[..|s| - 1];
      FirstSeenFacts(p, key);
      assert forall i :: 0 <= i < |p| ==> s[i] == p[i];
      var o := FirstSeen(p, key);
      var r := FirstSeen(s, key);
      forall j | 0 <= j < |r|
        ensures exists i :: 0 <= i < |s| && key(s[i]) == r[j]
      {
        if j < |o| {
          var i :| 0 <= i < |p| && key(p[i]) == o[j];
          assert key(s[i]) == r[j];
        } else {
          assert key(s[|s| - 1]) == r[j];
        }
      }
    }
  }

  /** How many elements of `s` have key `k`. */
  function KeyCount<T, K(==)>(s: seq<T>, key: T -> K, k: K): (n: nat)
    ensures n <= |s|
    decreases |s|
  {
    if s == [] then 0
    else KeyCount(s[..|s| - 1], key, k) + (if key(s[|s| - 1]) == k then 1 else 0)
  }

  /** The sum of `w` over the elements of `s` with key `k`. */
  function KeySum<T, K(==)>(s: seq<T>, key: T -> K, k: K, w: T -> real): real
    decreases |s|
  {
    if s == [] then 0.0
    else KeySum(s[..|s| - 1], key, k, w) + (if key(s[|s| - 1]) == k then w(s[|s| - 1]) else 0.0)
  }

  /** The per-key counts, added up over `keys`. */
  function CountTotal<T, K(==)>(keys: seq<K>, s: seq<T>, key: T -> K): nat
    decreases |keys|
  {
    if keys == [] then 0 else KeyCount(s, key, keys[0]) + CountTotal(keys[1..], s, key)
  }

  /** The per-key sums, added up over `keys`. */
  function SumTotal<T, K(==)>(keys: seq<K>, s: seq<T>, key: T -> K, w: T -> real): real
    decreases |keys|
  {
    if keys == [] then 0.0 else KeySum(s, key, keys[0], w) + SumTotal(keys[1..], s, key, w)
  }

  /** One more element of `s`: its key is added to the keys seen unless already there. */
  lemma FirstSeenStep<T, K>(s: seq<T>, i: nat, key: T -> K)
    requires i < |s|
    ensures var o := FirstSeen(s[..i], key);
      FirstSeen(s[..i + 1], key) == if key(s[i]) in o then o else o + [key(s[i])]
  {
    assert s[..i + 1][..i] == s[..i];
  }

  /** One more element of `s`: how a key's count and sum change. */
  lemma GroupStep<T, K>(s: seq<T>, i: nat, key: T -> K, k: K, w: T -> real)
    requires i < |s|
    ensures KeyCount(s[..i + 1], key, k) == KeyCount(s[..i], key, k) + (if key(s[i]) == k then 1 else 0)
    ensures KeySum(s[..i + 1], key, k, w) == KeySum(s[..i], key, k, w) + (if key(s[i]) == k then w(s[i]) else 0.0)
  {
    assert s[..i + 1][..i] == s[..i];
  }

  /** A key that no element carries counts and sums to nothing. */
  lemma {:induction false} AbsentKey<T, K>(s: seq<T>, key: T -> K, k: K, w: T -> real)
    requires forall i :: 0 <= i < |s| ==> key(s[i]) != k
    ensures KeyCount(s, key, k) == 0 && KeySum(s, key, k, w) == 0.0
    decreases |s|
  {
    if s != [] {
      AbsentKey(s[..|s| - 1], key, k, w);
    }
  }

  lemma {:induction false} TotalsAppendKey<T, K>(keys: seq<K>, k: K, s: seq<T>, key: T -> K, w: T -> real)
    ensures CountTotal(keys + [k], s, key) == CountTotal(keys, s, key) + KeyCount(s, key, k)
    ensures SumTotal(keys + [k], s, key, w) == SumTotal(keys, s, key, w) + KeySum(s, key, k, w)
    decreases |keys|
  {
    if keys != [] {
      TotalsAppendKey(keys[1..], k, s, key, w);
      assert (keys + [k])[1..] == keys[1..] + [k];
    }
  }

  /** Adding one element to `s` adds it to the total of its own key, if that key is listed once. */
  lemma {:induction false} TotalsAppendElement<T, K>(keys: seq<K>, p: seq<T>, x: T, key: T -> K, w: T -> real)
    requires forall i, j :: 0 <= i < j < |keys| ==> keys[i] != keys[j]
    ensures CountTotal(keys, p + [x], key) == CountTotal(keys, p, key) + (if key(x) in keys then 1 else 0)
    ensures SumTotal(keys, p + [x], key, w) == SumTotal(keys, p, key, w) + (if key(x) in keys then w(x) else 0.0)
    decreases |keys|
  {
    if keys != [] {
      TotalsAppendElement(keys[1..], p, x, key, w);
      assert (p + [x])[..|p + [x]| - 1] == p;
      assert keys == [keys[0]] + keys[1..];
      if key(x) == keys[0] {
        assert key(x) !in keys[1..];
      }
    }
  }

  /** The groups partition the input: the per-key counts add up to its length and the per-key
      sums add up to its sum. */
  lemma {:induction false} GroupsPartition<T, K>(s: seq<T>, key: T -> K, w: T -> real)
    ensures CountTotal(FirstSeen(s, key), s, key) == |s|
    ensures SumTotal(FirstSeen(s, key), s, key, w) == Sum(s, w)
    decreases |s|
  {
    if s != [] {
      var p, x := s[..|s| - 1], s[|s| - 1];
      assert s == p + [x];
      GroupsPartition(p, key, w);
      SumAppend(p, x, w);
      var keys := FirstSeen(p, key);
      FirstSeenFacts(p, key);
      TotalsAppendElement(keys, p, x, key, w);
      if key(x) !in keys {
        TotalsAppendKey(keys, key(x), s, key, w);
        assert forall i :: 0 <= i < |p| ==> key(p[i]) != key(x);
        AbsentKey(p, key, key(x), w);
      }
    }
  }
}
