/** `Array.prototype.sort(compare)` as the dashboard uses it: in place, on the caller's array.
    `after(x, y)` stands for `compare(x, y) > 0`, i.e. "x must come after y".

    ECMAScript promises a sorted permutation only when the comparator is consistent; otherwise
    the order is implementation-defined. The model therefore always promises a permutation, and
    promises order exactly when `after` is a strict weak order on the elements being sorted. */
module Sorting {

  /** `after` is asymmetric and its complement is transitive, on the elements of `s`. */
  ghost predicate StrictWeakOrderOn<T>(after: (T, T) -> bool, s: seq<T>) {
    && (forall x, y :: x in s && y in s && after(x, y) ==> !after(y, x))
    && (forall x, y, z :: x in s && y in s && z in s && !after(x, y) && !after(y, z) ==> !after(x, z))
  }

  /** No element is placed before one it must come after. */
  ghost predicate SortedBy<T>(after: (T, T) -> bool, s: seq<T>) {
    forall i, j :: 0 <= i < j < |s| ==> !after(s[i], s[j])
  }

  /** Pairs within `a[..n]` that avoid position `skip` are in order. */
  ghost predicate SortedExcept<T>(after: (T, T) -> bool, a: seq<T>, n: int, skip: int)
    requires n <= |a|
  {
    forall p, q :: 0 <= p < q < n && p != skip && q != skip ==> !after(a[p], a[q])
  }

  /** Every element of `t` is one of the elements of `s`. */
  ghost predicate DrawnFrom<T>(t: seq<T>, s: seq<T>) {
    forall k :: 0 <= k < |t| ==> t[k] in s
  }

  lemma SamePermutationDrawnFrom<T>(t: seq<T>, s: seq<T>)
    requires multiset(t) == multiset(s)
    ensures DrawnFrom(t, s)
  {
    forall k | 0 <= k < |t| ensures t[k] in s {
      assert t[k] in multiset(t);
    }
  }

  /** One swap of the inserted element with its left neighbour keeps the ordering facts. */
  lemma SwapStep<T>(after: (T, T) -> bool, s0: seq<T>, t: seq<T>, u: seq<T>, i: int, j: int)
    requires StrictWeakOrderOn(after, s0) && DrawnFrom(t, s0)
    requires 0 < j <= i < |t| && |u| == |t|
    requires after(t[j - 1], t[j])
    requires u[j - 1] == t[j] && u[j] == t[j - 1]
    requires forall k :: 0 <= k < |t| && k != j - 1 && k != j ==> u[k] == t[k]
    requires SortedExcept(after, t, i + 1, j)
    requires forall q :: j < q <= i ==> !after(t[j], t[q])
    ensures SortedExcept(after, u, i + 1, j - 1)
    ensures forall q :: j - 1 < q <= i ==> !after(u[j - 1], u[q])
  {
    assert t[j - 1] in s0 && t[j] in s0;
    assert !after(t[j], t[j - 1]);
  }

  /** When the inserted element stops moving, the whole prefix `t[..i+1]` is in order. */
  lemma InsertDone<T>(after: (T, T) -> bool, s0: seq<T>, t: seq<T>, i: int, j: int)
    requires StrictWeakOrderOn(after, s0) && DrawnFrom(t, s0)
    requires 0 <= j <= i < |t|
    requires j == 0 || !after(t[j - 1], t[j])
    requires SortedExcept(after, t, i + 1, j)
    requires forall q :: j < q <= i ==> !after(t[j], t[q])
    ensures SortedExcept(after, t, i + 1, -1)
  {
    forall p, q | 0 <= p < q < i + 1 ensures !after(t[p], t[q]) {
      if q == j && p < j - 1 {
        assert t[p] in s0 && t[j - 1] in s0 && t[j] in s0;
        assert !after(t[p], t[j - 1]);
      }
    }
  }

  /** Swapping two neighbours keeps the elements. */
  lemma SwapKeepsMultiset<T>(t: seq<T>, j: int)
    requires 0 < j < |t|
    ensures multiset(t[j - 1 := t[j]][j := t[j - 1]]) == multiset(t)
  {
  }

  /** Insertion sort by adjacent swaps (stable; JavaScript engines need not be). */
  method SortInPlace<T>(a: array<T>, after: (T, T) -> bool)
    modifies a
    ensures multiset(a[..]) == multiset(old(a[..]))
    ensures StrictWeakOrderOn(after, old(a[..])) ==> SortedBy(after, a[..])
  {
    ghost var s0 := a[..];
    ghost var swo := StrictWeakOrderOn(after, s0);
    var i := 0;
    while i < a.Length
      invariant 0 <= i <= a.Length
      invariant multiset(a[..]) == multiset(s0)
      invariant swo ==> SortedExcept(after, a[..], i, -1)
    {
      Insert(a, after, i, s0, swo);
      i := i + 1;
    }
  }

  /** Moves `a[i]` left past every element it must come before. */
  method Insert<T>(a: array<T>, after: (T, T) -> bool, i: int, ghost s0: seq<T>, ghost swo: bool)
    requires 0 <= i < a.Length
    requires multiset(a[..]) == multiset(s0)
    requires swo ==> StrictWeakOrderOn(after, s0) && SortedExcept(after, a[..], i, -1)
    modifies a
    ensures multiset(a[..]) == multiset(s0)
    ensures swo ==> SortedExcept(after, a[..], i + 1, -1)
  {
    var j := i;
    while j > 0 && after(a[j - 1], a[j])
      invariant 0 <= j <= i
      invariant multiset(a[..]) == multiset(s0)
      invariant swo ==> SortedExcept(after, a[..], i + 1, j)
      invariant swo ==> forall q :: j < q <= i ==> !after(a[j], a[q])
    {
      ghost var t := a[..];
      a[j - 1], a[j] := a[j], a[j - 1];
      assert a[..] == t[j - 1 := t[j]][j := t[j - 1]];
      SwapKeepsMultiset(t, j);
      if swo {
        SamePermutationDrawnFrom(t, s0);
        SwapStep(after, s0, t, a[..], i, j);
      }
      j := j - 1;
    }
    if swo {
      SamePermutationDrawnFrom(a[..], s0);
      InsertDone(after, s0, a[..], i, j);
    }
  }
}
