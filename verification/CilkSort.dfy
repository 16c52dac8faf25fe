/**
 The parallel merge sort of the benchmarks.  The calls that the program spawns are made one after the other here;
 their contracts say that each writes only its own range of the two arrays, and the ranges of calls that run in
 parallel are disjoint.  What a call leaves in its range depends on that range alone, so their order does not matter.
 */
module CilkSort {

  predicate Sorted(s: seq<real>) { forall i, j :: 0 <= i < j < |s| ==> s[i] <= s[j] }

  /** Every element of s is at most every element of t. */
  predicate Below(s: seq<real>, t: seq<real>) { forall i, j :: 0 <= i < |s| && 0 <= j < |t| ==> s[i] <= t[j] }

  predicate AtMost(s: seq<real>, k: real) { forall i :: 0 <= i < |s| ==> s[i] <= k }

  predicate AtLeast(s: seq<real>, k: real) { forall i :: 0 <= i < |s| ==> k <= s[i] }

  /** s is a sorted arrangement of the elements of m. */
  ghost predicate SortedOf(s: seq<real>, m: multiset<real>) { Sorted(s) && multiset(s) == m }

  lemma SortedConcat(s: seq<real>, t: seq<real>)
    requires Sorted(s) && Sorted(t) && Below(s, t)
    ensures Sorted(s + t)
  {
  }

  /** Bounds pass on to any arrangement of the elements of two sequences. */
  lemma Bounds(s: seq<real>, l: seq<real>, h: seq<real>, k: real)
    requires multiset(s) == multiset(l) + multiset(h)
    ensures AtMost(l, k) && AtMost(h, k) ==> AtMost(s, k)
    ensures AtLeast(l, k) && AtLeast(h, k) ==> AtLeast(s, k)
  {
    forall i | 0 <= i < |s| ensures s[i] in l || s[i] in h {
      assert s[i] in multiset(s);
    }
  }

  /** The copy of a[b..e], both ends included, to d from index j on. */
  method Copy(a: array<real>, b: int, e: int, d: array<real>, j: int)
    requires a != d && 0 <= b && b - 1 <= e < a.Length && 0 <= j && j + (e - b + 1) <= d.Length
    modifies d
    ensures d[j..j + (e - b + 1)] == a[b..e + 1]
    ensures d[..j] == old(d[..j]) && d[j + (e - b + 1)..] == old(d[j + (e - b + 1)..])
  {
    var b', j' := b, j;
    ghost var d0 := d[..];
    while e >= b'
      invariant b <= b' <= e + 1 && j' - j == b' - b
      invariant d[j..j'] == a[b..b'] && d[..j] == d0[..j] && d[j'..] == d0[j'..]
    {
      ghost var done, rest := d[j..j'], d[j'..];
      d[j'] := a[b'];
      assert d[j..j' + 1] == done + [a[b']] == a[b..b' + 1];
      assert d[j' + 1..] == rest[1..];
      b', j' := b' + 1, j' + 1;
    }
  }

  /** The first index from b on whose element is greater than k, or e + 1. */
  method Search(a: array<real>, b0: int, e0: int, k: real) returns (n: int)
    requires 0 <= b0 <= e0 + 1 && e0 < a.Length && Sorted(a[b0..e0 + 1])
    ensures b0 <= n <= e0 + 1
    ensures forall i :: b0 <= i < n ==> a[i] <= k
    ensures forall i :: n <= i <= e0 ==> k < a[i]
  {
    assert forall i, j :: b0 <= i < j <= e0 ==> a[i] <= a[j] by {
      forall i, j | b0 <= i < j <= e0 ensures a[i] <= a[j] {
        var s := a[b0..e0 + 1];
        assert s[i - b0] <= s[j - b0];
      }
    }
    var b, e := b0, e0;
    while true
      invariant b0 <= b <= e + 1 <= e0 + 1
      invariant forall i :: b0 <= i < b ==> a[i] <= k
      invariant forall i :: e < i <= e0 ==> k < a[i]
      decreases e - b + 1
    {
      if e < b {
        return e + 1;
      }
      if e == b {
        return if k < a[e] then e else e + 1;
      }
      var m := (b + e) / 2;
      if k < a[m] {
        e := m;
      } else {
        b := m + 1;
      }
    }
  }

  ghost function Part(a: array<real>, b: int, e: int): seq<real>
    requires 0 <= b <= e + 1 <= a.Length
    reads a
  {
    a[b..e + 1]
  }

  /** What merge needs of its two ranges, which hold s1 and s2, and of the room in d. */
  ghost predicate Mergeable(a: array<real>, b1: int, e1: int, b2: int, e2: int, d: array<real>, j: int, s1: seq<real>,
                            s2: seq<real>)
    reads a
  {
    && a != d && 0 <= b1 <= e1 + 1 <= a.Length && 0 <= b2 <= e2 + 1 <= a.Length
    && 0 <= j && j + |s1| + |s2| <= d.Length
    && Part(a, b1, e1) == s1 && Part(a, b2, e2) == s2 && Sorted(s1) && Sorted(s2)
  }

  /** d1 differs from d0 only in the n elements from index j on, which are a sorted arrangement of m. */
  ghost predicate Written(d0: seq<real>, d1: seq<real>, j: int, n: int, m: multiset<real>) {
    && 0 <= j <= j + n <= |d0| == |d1| && d1[..j] == d0[..j] && d1[j + n..] == d0[j + n..] && SortedOf(d1[j..j + n], m)
  }

  /** Two ranges of which the second begins where the first ends, copied one after the other. */
  method CopyBoth(a: array<real>, b1: int, e1: int, b2: int, e2: int, d: array<real>, j: int, ghost s1: seq<real>,
                  ghost s2: seq<real>)
    requires Mergeable(a, b1, e1, b2, e2, d, j, s1, s2) && b1 <= e1 && b2 <= e2 && a[e1] <= a[b2]
    modifies d
    ensures Written(old(d[..]), d[..], j, |s1| + |s2|, multiset(s1) + multiset(s2))
  {
    hide Sorted, Below, Written, SortedOf;
    ghost var d0 := d[..];
    Copy(a, b1, e1, d, j);
    ghost var d1 := d[..];
    Copy(a, b2, e2, d, j + (e1 - b1 + 1));
    InOrder(d0, d1, d[..], j, s1, s2);
  }

  /** Merge the sorted ranges a[b1..e1] and a[b2..e2] into d from index j on.  It terminates although it may call itself
      with its ranges exchanged, because the elements are totally ordered. */
  method Merge(a: array<real>, b1: int, e1: int, b2: int, e2: int, d: array<real>, j: int, cutOff: int,
               ghost s1: seq<real>, ghost s2: seq<real>)
    requires Mergeable(a, b1, e1, b2, e2, d, j, s1, s2)
    modifies d
    ensures Written(old(d[..]), d[..], j, |s1| + |s2|, multiset(s1) + multiset(s2))
    decreases |s1| + |s2|, |s2|, 1
  {
    hide Sorted, Below, Written, SortedOf;
    ghost var d0 := d[..];
    assert |s1| == e1 - b1 + 1 && |s2| == e2 - b2 + 1;
    if e1 < b1 {
      Copy(a, b2, e2, d, j);
      Single(d0, d[..], j, s1, s2);
    } else if e2 < b2 {
      Copy(a, b1, e1, d, j);
      Single(d0, d[..], j, s2, s1);
    } else if e1 - b1 < e2 - b2 {
      Merge(a, b2, e2, b1, e1, d, j, cutOff, s2, s1);
      assert multiset(s1) + multiset(s2) == multiset(s2) + multiset(s1);
    } else if a[e1] <= a[b2] {
      CopyBoth(a, b1, e1, b2, e2, d, j, s1, s2);
    } else if a[e2] <= a[b1] {
      CopyBoth(a, b2, e2, b1, e1, d, j, s2, s1);
      assert multiset(s1) + multiset(s2) == multiset(s2) + multiset(s1);
    } else {
      OneEach(a, b1, e1, b2, e2);
      var m := (b1 + e1) / 2;
      var n := SearchPart(a, b2, e2, a[m], s2);
      MergeAround(a, b1, e1, b2, e2, d, j, m, n, cutOff, s1, s2);
    }
  }

  method SearchPart(a: array<real>, b: int, e: int, k: real, ghost s: seq<real>) returns (n: int)
    requires 0 <= b <= e + 1 <= a.Length && Part(a, b, e) == s && Sorted(s)
    ensures b <= n <= e + 1 && AtMost(s[..n - b], k) && AtLeast(s[n - b..], k)
  {
    n := Search(a, b, e, k);
  }

  lemma Single(d0: seq<real>, d1: seq<real>, j: int, s: seq<real>, t: seq<real>)
    requires s == [] && Sorted(t) && 0 <= j <= j + |t| <= |d0| == |d1| && d1[j..j + |t|] == t && d1[..j] == d0[..j]
             && d1[j + |t|..] == d0[j + |t|..]
    ensures Written(d0, d1, j, |s| + |t|, multiset(s) + multiset(t))
            && Written(d0, d1, j, |s| + |t|, multiset(t) + multiset(s))
  {
    assert multiset(s) + multiset(t) == multiset(t) && multiset(t) + multiset(s) == multiset(t);
  }

  /** Two sorted ranges copied one after the other. */
  lemma InOrder(d0: seq<real>, d1: seq<real>, d2: seq<real>, j: int, s: seq<real>, t: seq<real>)
    requires s != [] && t != [] && Sorted(s) && Sorted(t) && s[|s| - 1] <= t[0]
    requires 0 <= j && j + |s| + |t| <= |d0| == |d1| == |d2|
    requires d1[j..j + |s|] == s && d1[..j] == d0[..j] && d1[j + |s|..] == d0[j + |s|..]
    requires d2[j + |s|..j + |s| + |t|] == t && d2[..j + |s|] == d1[..j + |s|]
             && d2[j + |s| + |t|..] == d1[j + |s| + |t|..]
    ensures Written(d0, d2, j, |s| + |t|, multiset(s) + multiset(t))
  {
    forall x, y | 0 <= x < |s| && 0 <= y < |t| ensures s[x] <= t[y] {
      assert s[x] <= s[|s| - 1] && t[0] <= t[y];
    }
    SortedConcat(s, t);
    hide Sorted, Below;
    Halves(d0, d1, d2, j, |s|, |s| + |t|, s, t);
  }

  /** Two ranges of one element each are ordered one way or the other. */
  lemma OneEach(a: array<real>, b1: int, e1: int, b2: int, e2: int)
    requires 0 <= b1 <= e1 < a.Length && 0 <= b2 <= e2 < a.Length && e1 - b1 >= e2 - b2 && a[e1] > a[b2]
             && a[e2] > a[b1]
    ensures b1 < e1
  {
  }

  /** The elements of the two lower parts are at most k, those of the two upper parts at least k. */
  lemma Around(l1: seq<real>, h1: seq<real>, l2: seq<real>, h2: seq<real>, k: real, s: seq<real>, t: seq<real>)
    requires AtMost(l1, k) && AtMost(l2, k) && AtLeast(h1, k) && AtLeast(h2, k)
    requires SortedOf(s, multiset(l1) + multiset(l2)) && SortedOf(t, multiset(h1) + multiset(h2))
    ensures SortedOf(s + t, multiset(l1 + h1) + multiset(l2 + h2))
  {
    Bounds(s, l1, l2, k);
    Bounds(t, h1, h2, k);
    assert Below(s, t);
    hide Sorted, Below, AtMost, AtLeast;
    SortedConcat(s, t);
  }

  /** The two recursive calls of merge around the median of the longer range; in the parallel version the spawned one
      may just as well run last, since each writes its own part of d. */
  method MergeAround(a: array<real>, b1: int, e1: int, b2: int, e2: int, d: array<real>, j: int, m: int, n: int,
                     cutOff: int, ghost s1: seq<real>, ghost s2: seq<real>)
    requires Mergeable(a, b1, e1, b2, e2, d, j, s1, s2) && b1 <= m < e1 && b2 <= n <= e2 + 1
    requires AtMost(s2[..n - b2], a[m]) && AtLeast(s2[n - b2..], a[m])
    modifies d
    ensures Written(old(d[..]), d[..], j, |s1| + |s2|, multiset(s1) + multiset(s2))
    decreases |s1| + |s2|, |s2|, 0
  {
    hide Sorted, Below, AtMost, AtLeast, Written, SortedOf, Part;
    ghost var d0 := d[..];
    Halve(a, b1, e1, m, s1);
    Halve(a, b2, e2, n - 1, s2);
    ghost var l1, h1, l2, h2 := s1[..m - b1 + 1], s1[m - b1 + 1..], s2[..n - b2], s2[n - b2..];
    Divide(s1, m - b1, a[m]);
    assert l1 + h1 == s1 && l2 + h2 == s2;
    ghost var d1;
    var up := j + (m - b1 + 1) + (n - b2);
    assert up == j + |l1| + |l2|;
    if e1 - b1 <= cutOff {
      Merge(a, b1, m, b2, n - 1, d, j, cutOff, l1, l2);
      d1 := d[..];
      Merge(a, m + 1, e1, n, e2, d, up, cutOff, h1, h2);
      WrittenUp(d0, d1, d[..], j, up, l1, l2, h1, h2, a[m], s1, s2);
    } else {
      Merge(a, m + 1, e1, n, e2, d, up, cutOff, h1, h2);
      d1 := d[..];
      Merge(a, b1, m, b2, n - 1, d, j, cutOff, l1, l2);
      WrittenDown(d0, d1, d[..], j, up, l1, l2, h1, h2, a[m], s1, s2);
    }
  }

  lemma Divide(s: seq<real>, m: int, k: real)
    requires 0 <= m < |s| && Sorted(s) && k == s[m]
    ensures Sorted(s[..m + 1]) && Sorted(s[m + 1..]) && AtMost(s[..m + 1], k) && AtLeast(s[m + 1..], k)
  {
  }

  lemma Halve(a: array<real>, b: int, e: int, m: int, s: seq<real>)
    requires 0 <= b <= m + 1 <= e + 1 <= a.Length && Part(a, b, e) == s && Sorted(s)
    ensures |s| == e - b + 1 && Part(a, b, m) == s[..m - b + 1] && Part(a, m + 1, e) == s[m - b + 1..]
    ensures Sorted(s[..m - b + 1]) && Sorted(s[m - b + 1..]) && (m >= b ==> a[m] == s[m - b])
  {
  }

  /** The lower part is written first, then the upper part. */
  lemma WrittenUp(d0: seq<real>, d1: seq<real>, d2: seq<real>, j: int, up: int, l1: seq<real>, l2: seq<real>,
                  h1: seq<real>, h2: seq<real>, k: real, s1: seq<real>, s2: seq<real>)
    requires up == j + |l1| + |l2| && s1 == l1 + h1 && s2 == l2 + h2
    requires AtMost(l1, k) && AtMost(l2, k) && AtLeast(h1, k) && AtLeast(h2, k)
    requires Written(d0, d1, j, |l1| + |l2|, multiset(l1) + multiset(l2))
    requires Written(d1, d2, up, |h1| + |h2|, multiset(h1) + multiset(h2))
    ensures Written(d0, d2, j, |s1| + |s2|, multiset(s1) + multiset(s2))
  {
    var n, len := |l1| + |l2|, |l1 + h1| + |l2 + h2|;
    Halves(d0, d1, d2, j, n, len, d1[j..j + n], d2[j + n..j + len]);
    Around(l1, h1, l2, h2, k, d1[j..j + n], d2[j + n..j + len]);
    hide SortedOf, AtMost, AtLeast;
  }

  lemma WrittenDown(d0: seq<real>, d1: seq<real>, d2: seq<real>, j: int, up: int, l1: seq<real>, l2: seq<real>,
                    h1: seq<real>, h2: seq<real>, k: real, s1: seq<real>, s2: seq<real>)
    requires up == j + |l1| + |l2| && s1 == l1 + h1 && s2 == l2 + h2
    requires AtMost(l1, k) && AtMost(l2, k) && AtLeast(h1, k) && AtLeast(h2, k)
    requires Written(d0, d1, up, |h1| + |h2|, multiset(h1) + multiset(h2))
    requires Written(d1, d2, j, |l1| + |l2|, multiset(l1) + multiset(l2))
    requires j >= 0
    ensures Written(d0, d2, j, |s1| + |s2|, multiset(s1) + multiset(s2))
  {
    var n, len := |l1| + |l2|, |l1 + h1| + |l2 + h2|;
    HalvesBack(d0, d1, d2, j, n, len, d2[j..j + n], d1[j + n..j + len]);
    Around(l1, h1, l2, h2, k, d2[j..j + n], d1[j + n..j + len]);
    hide SortedOf, AtMost, AtLeast;
  }

  /** First the lower part of a range is written, then the upper one. */
  lemma Halves(d0: seq<real>, d1: seq<real>, d2: seq<real>, j: int, k: int, len: int, s: seq<real>, t: seq<real>)
    requires 0 <= j <= j + k <= j + len <= |d0| == |d1| == |d2|
    requires d1[..j] == d0[..j] && d1[j + k..] == d0[j + k..] && d1[j..j + k] == s
    requires d2[..j + k] == d1[..j + k] && d2[j + len..] == d1[j + len..] && d2[j + k..j + len] == t
    ensures d2[j..j + len] == s + t && d2[..j] == d0[..j] && d2[j + len..] == d0[j + len..]
  {
    assert d2[j..j + k] == d2[..j + k][j..] == d1[j..j + k];
    assert d2[..j] == d2[..j + k][..j] == d1[..j];
    assert d1[j + len..] == d1[j + k..][len - k..] == d0[j + len..];
  }

  /** The other way round. */
  lemma HalvesBack(d0: seq<real>, d1: seq<real>, d2: seq<real>, j: int, k: int, len: int, s: seq<real>, t: seq<real>)
    requires 0 <= j <= j + k <= j + len <= |d0| == |d1| == |d2|
    requires d1[..j + k] == d0[..j + k] && d1[j + len..] == d0[j + len..] && d1[j + k..j + len] == t
    requires d2[..j] == d1[..j] && d2[j + k..] == d1[j + k..] && d2[j..j + k] == s
    ensures d2[j..j + len] == s + t && d2[..j] == d0[..j] && d2[j + len..] == d0[j + len..]
  {
    assert d2[j + k..j + len] == d2[j + k..][..len - k] == d1[j + k..j + len];
    assert d2[j + len..] == d2[j + k..][len - k..] == d1[j + len..];
    assert d1[..j] == d1[..j + k][..j] == d0[..j];
  }

  // ---------------------------------------------------------------- the sort

  /** The range a[b..e] is sorted and is an arrangement of what it was, and nothing else of the array has changed. */
  ghost predicate Rearranged(s0: seq<real>, s1: seq<real>, b: int, e: int) {
    && 0 <= b <= e + 1 <= |s0| == |s1| && SortedOf(s1[b..e + 1], multiset(s0[b..e + 1])) && Elsewhere(s0, s1, b, e)
  }

  /** Outside the range b..e the arrays agree. */
  ghost predicate Elsewhere(s0: seq<real>, s1: seq<real>, b: int, e: int) {
    0 <= b <= e + 1 <= |s0| == |s1| && s1[..b] == s0[..b] && s1[e + 1..] == s0[e + 1..]
  }

  lemma Nothing(s: seq<real>, b: int, e: int)
    requires 0 <= b <= e + 1 <= |s| && e <= b
    ensures Rearranged(s, s, b, e) && Elsewhere(s, s, b, e)
  {
  }

  /** Two neighbouring ranges have been sorted one after the other. */
  lemma TwoSorted(s0: seq<real>, s1: seq<real>, s2: seq<real>, lo: int, mid: int, hi: int)
    requires Rearranged(s0, s1, lo, mid) && Rearranged(s1, s2, mid + 1, hi)
    ensures Sorted(s2[lo..mid + 1]) && Sorted(s2[mid + 1..hi + 1]) && Elsewhere(s0, s2, lo, hi)
    ensures multiset(s2[lo..mid + 1]) + multiset(s2[mid + 1..hi + 1]) == multiset(s0[lo..hi + 1])
  {
    hide Sorted;
    assert s2[lo..mid + 1] == s2[..mid + 1][lo..] == s1[lo..mid + 1];
    assert s1[mid + 1..hi + 1] == s1[mid + 1..][..hi - mid] == s0[mid + 1..hi + 1];
    assert s0[lo..hi + 1] == s0[lo..mid + 1] + s0[mid + 1..hi + 1];
    assert s2[..lo] == s2[..mid + 1][..lo] == s0[..lo];
    assert s2[hi + 1..] == s1[hi + 1..] == s1[mid + 1..][hi - mid..] == s0[hi + 1..];
  }

  /** Changes of two neighbouring ranges are a change of the whole; either range is untouched by the other's. */
  lemma TwoElsewhere(s0: seq<real>, s1: seq<real>, s2: seq<real>, lo: int, mid: int, hi: int)
    requires Elsewhere(s0, s1, lo, mid) && Elsewhere(s1, s2, mid + 1, hi)
    ensures Elsewhere(s0, s2, lo, hi) && s2[lo..mid + 1] == s1[lo..mid + 1]
            && s1[mid + 1..hi + 1] == s0[mid + 1..hi + 1]
  {
    assert s2[lo..mid + 1] == s2[..mid + 1][lo..] == s1[lo..mid + 1];
    assert s1[mid + 1..hi + 1] == s1[mid + 1..][..hi - mid] == s0[mid + 1..hi + 1];
    assert s2[..lo] == s2[..mid + 1][..lo] == s0[..lo];
    assert s2[hi + 1..] == s1[hi + 1..] == s1[mid + 1..][hi - mid..] == s0[hi + 1..];
  }

  /** Changes within a range, one after the other. */
  lemma Within(s0: seq<real>, s1: seq<real>, s2: seq<real>, lo: int, hi: int, lo': int, hi': int)
    requires Elsewhere(s0, s1, lo', hi') && Elsewhere(s1, s2, lo, hi) && lo' <= lo && hi <= hi'
    ensures Elsewhere(s0, s2, lo', hi')
  {
    assert s2[..lo'] == s2[..lo][..lo'] == s1[..lo'];
    assert s2[hi' + 1..] == s2[hi + 1..][hi' - hi..] == s1[hi' + 1..];
  }

  lemma WrittenElsewhere(s0: seq<real>, s1: seq<real>, lo: int, hi: int, m: multiset<real>)
    requires Written(s0, s1, lo, hi - lo + 1, m)
    ensures Elsewhere(s0, s1, lo, hi) && SortedOf(s1[lo..hi + 1], m)
  {
  }

  /** Two sorted neighbouring ranges of a, merged into the same place of d. */
  method MergeInto(a: array<real>, b: int, q: int, e: int, d: array<real>, j: int, cutOff: int, ghost m: multiset<real>)
    requires a != d && a.Length == d.Length && 0 <= b <= q + 1 <= e + 1 <= a.Length && j == b
    requires Sorted(a[b..q + 1]) && Sorted(a[q + 1..e + 1]) && multiset(a[b..q + 1]) + multiset(a[q + 1..e + 1]) == m
    modifies d
    ensures SortedOf(d[b..e + 1], m) && Elsewhere(old(d[..]), d[..], b, e)
  {
    ghost var d0 := d[..];
    hide Sorted;
    Merge(a, b, q, q + 1, e, d, j, cutOff, a[b..q + 1], a[q + 1..e + 1]);
    hide Written, SortedOf, Elsewhere;
    WrittenElsewhere(d0, d[..], b, e, m);
    assert d[..][b..e + 1] == d[b..e + 1];
  }

  /** The two quarters of half of the range: sorted in a. */
  method SortTwo(a: array<real>, b: int, q: int, e: int, d: array<real>, j: int, cutOff: int)
    requires a != d && a.Length == d.Length && 0 <= b <= q + 1 <= e + 1 <= a.Length && j == b
    modifies a, d
    ensures Sorted(a[b..q + 1]) && Sorted(a[q + 1..e + 1])
            && multiset(a[b..q + 1]) + multiset(a[q + 1..e + 1]) == multiset(old(a[b..e + 1]))
    ensures Elsewhere(old(a[..]), a[..], b, e) && Elsewhere(old(d[..]), d[..], b, e)
    decreases e - b + 1, 1
  {
    hide Sorted, SortedOf, Rearranged, Elsewhere;
    ghost var a0, d0 := a[..], d[..];
    Sort(a, b, q, d, j, cutOff);
    ghost var a1, d1 := a[..], d[..];
    Sort(a, q + 1, e, d, j + (q - b + 1), cutOff);
    TwoSorted(a0, a1, a[..], b, q, e);
    TwoElsewhere(d0, d1, d[..], b, q, e);
    assert a[..][b..q + 1] == a[b..q + 1] && a[..][q + 1..e + 1] == a[q + 1..e + 1];
    assert a0[b..e + 1] == old(a[b..e + 1]);
  }

  /** Sort a[b..e] with d[b..e] as scratch space: four quarters, two merges into d, one merge back.  In the parallel
      version the first half is sorted and merged by one thread and the third quarter by another; the ranges they touch
      are disjoint, and here their steps come first. */
  method Sort(a: array<real>, b: int, e: int, d: array<real>, j: int, cutOff: int)
    requires a != d && a.Length == d.Length && 0 <= b <= e + 1 <= a.Length && j == b
    modifies a, d
    ensures Rearranged(old(a[..]), a[..], b, e) && Elsewhere(old(d[..]), d[..], b, e)
    decreases e - b + 1, 0
  {
    hide Sorted, SortedOf, Rearranged, Elsewhere;
    ghost var a0, d0 := a[..], d[..];
    if e <= b {
      Nothing(a0, b, e);
      Nothing(d0, b, e);
      return;
    }
    var q2 := (b + e) / 2;
    var q1 := (b + q2) / 2;
    var q3 := (q2 + 1 + e) / 2;
    ghost var m1, m2 := multiset(a0[b..q2 + 1]), multiset(a0[q2 + 1..e + 1]);
    if e - b <= cutOff {
      SortQuarters(a, b, q1, q2, q3, e, d, j, cutOff);
    } else {
      SpawnQuarters(a, b, q1, q2, q3, e, d, j, cutOff);
    }
    MergeBack(a, b, q2, e, d, cutOff, a0, m1, m2);
  }

  /** All four quarters, then the two merges. */
  method SortQuarters(a: array<real>, b: int, q1: int, q2: int, q3: int, e: int, d: array<real>, j: int, cutOff: int)
    requires a != d && a.Length == d.Length && 0 <= b <= q1 + 1 <= q2 + 1 <= q3 + 1 <= e + 1 <= a.Length && j == b
             && b <= q2 < e
    modifies a, d
    ensures SortedOf(d[b..q2 + 1], multiset(old(a[b..q2 + 1])))
            && SortedOf(d[q2 + 1..e + 1], multiset(old(a[q2 + 1..e + 1])))
    ensures Elsewhere(old(a[..]), a[..], b, e) && Elsewhere(old(d[..]), d[..], b, e)
    decreases e - b, 2
  {
    hide Sorted, SortedOf, Rearranged, Elsewhere;
    ghost var a0, d0 := a[..], d[..];
    ghost var m1, m2 := multiset(a[b..q2 + 1]), multiset(a[q2 + 1..e + 1]);
    SortTwo(a, b, q1, q2, d, j, cutOff);
    ghost var a1, d1 := a[..], d[..];
    assert Sorted(a1[b..q1 + 1]) && Sorted(a1[q1 + 1..q2 + 1])
           && multiset(a1[b..q1 + 1]) + multiset(a1[q1 + 1..q2 + 1]) == m1;
    Outside(a0, a1, b, q2, q2 + 1, e);
    SortTwo(a, q2 + 1, q3, e, d, j + (q2 - b + 1), cutOff);
    ghost var a2, d2 := a[..], d[..];
    TwoElsewhere(a0, a1, a2, b, q2, e);
    TwoElsewhere(d0, d1, d2, b, q2, e);
    LowerKept(a1, a2, b, q1, q2, e, m1);
    MergeBoth(a, b, q1, q2, q3, e, d, j, cutOff, m1, m2);
    Within(d0, d2, d[..], b, e, b, e);
  }

  /** Sorting the second half leaves the first half as it was. */
  lemma LowerKept(a1: seq<real>, a2: seq<real>, b: int, q1: int, q2: int, e: int, m: multiset<real>)
    requires 0 <= b <= q1 + 1 <= q2 + 1 <= |a1| && Elsewhere(a1, a2, q2 + 1, e)
    requires Sorted(a1[b..q1 + 1]) && Sorted(a1[q1 + 1..q2 + 1])
             && multiset(a1[b..q1 + 1]) + multiset(a1[q1 + 1..q2 + 1]) == m
    ensures Sorted(a2[b..q1 + 1]) && Sorted(a2[q1 + 1..q2 + 1])
            && multiset(a2[b..q1 + 1]) + multiset(a2[q1 + 1..q2 + 1]) == m
  {
    Outside(a1, a2, q2 + 1, e, b, q1);
    Outside(a1, a2, q2 + 1, e, q1 + 1, q2);
  }

  method MergeBoth(a: array<real>, b: int, q1: int, q2: int, q3: int, e: int, d: array<real>, j: int, cutOff: int,
                   ghost m1: multiset<real>, ghost m2: multiset<real>)
    requires a != d && a.Length == d.Length && 0 <= b <= q1 + 1 <= q2 + 1 <= q3 + 1 <= e + 1 <= a.Length && j == b
             && b <= q2 < e
    requires Sorted(a[b..q1 + 1]) && Sorted(a[q1 + 1..q2 + 1])
             && multiset(a[b..q1 + 1]) + multiset(a[q1 + 1..q2 + 1]) == m1
    requires Sorted(a[q2 + 1..q3 + 1]) && Sorted(a[q3 + 1..e + 1])
             && multiset(a[q2 + 1..q3 + 1]) + multiset(a[q3 + 1..e + 1]) == m2
    modifies d
    ensures SortedOf(d[b..q2 + 1], m1) && SortedOf(d[q2 + 1..e + 1], m2) && Elsewhere(old(d[..]), d[..], b, e)
  {
    hide Sorted, SortedOf, Elsewhere;
    ghost var d2 := d[..];
    MergeInto(a, b, q1, q2, d, j, cutOff, m1);
    ghost var d3 := d[..];
    MergeInto(a, q2 + 1, q3, e, d, j + (q2 - b + 1), cutOff, m2);
    TwoElsewhere(d2, d3, d[..], b, q2, e);
    assert d[..][b..q2 + 1] == d[b..q2 + 1];
  }

  /** Half of the range: its two quarters are sorted and merged. */
  method SortHalf(a: array<real>, b: int, q: int, e: int, d: array<real>, j: int, cutOff: int)
    requires a != d && a.Length == d.Length && 0 <= b <= q + 1 <= e + 1 <= a.Length && j == b
    modifies a, d
    ensures SortedOf(d[b..e + 1], multiset(old(a[b..e + 1])))
    ensures Elsewhere(old(a[..]), a[..], b, e) && Elsewhere(old(d[..]), d[..], b, e)
    decreases e - b + 1, 2
  {
    hide Sorted, SortedOf, Rearranged, Elsewhere;
    ghost var d0, m := d[..], multiset(a[b..e + 1]);
    SortTwo(a, b, q, e, d, j, cutOff);
    ghost var d1 := d[..];
    MergeInto(a, b, q, e, d, j, cutOff, m);
    Within(d0, d1, d[..], b, e, b, e);
  }

  /** The first half is sorted and merged before the second half is sorted and merged. */
  method SpawnQuarters(a: array<real>, b: int, q1: int, q2: int, q3: int, e: int, d: array<real>, j: int, cutOff: int)
    requires a != d && a.Length == d.Length && 0 <= b <= q1 + 1 <= q2 + 1 <= q3 + 1 <= e + 1 <= a.Length && j == b
             && b <= q2 < e
    modifies a, d
    ensures SortedOf(d[b..q2 + 1], multiset(old(a[b..q2 + 1])))
            && SortedOf(d[q2 + 1..e + 1], multiset(old(a[q2 + 1..e + 1])))
    ensures Elsewhere(old(a[..]), a[..], b, e) && Elsewhere(old(d[..]), d[..], b, e)
    decreases e - b, 3
  {
    hide Sorted, SortedOf, Rearranged, Elsewhere;
    ghost var a0, d0 := a[..], d[..];
    SortHalf(a, b, q1, q2, d, j, cutOff);
    ghost var a1, d1 := a[..], d[..];
    Outside(a0, a1, b, q2, q2 + 1, e);
    assert a1[q2 + 1..e + 1] == a[q2 + 1..e + 1] && a0[q2 + 1..e + 1] == old(a[q2 + 1..e + 1]);
    SortHalf(a, q2 + 1, q3, e, d, j + (q2 - b + 1), cutOff);
    TwoElsewhere(a0, a1, a[..], b, q2, e);
    TwoElsewhere(d0, d1, d[..], b, q2, e);
    assert d[..][b..q2 + 1] == d[b..q2 + 1] && d1[b..q2 + 1] == d[b..q2 + 1];
  }

  /** A range outside the one that has changed. */
  lemma Outside(s0: seq<real>, s1: seq<real>, lo: int, hi: int, x: int, y: int)
    requires Elsewhere(s0, s1, lo, hi) && 0 <= x <= y + 1 <= |s0| && (y < lo || hi < x)
    ensures s1[x..y + 1] == s0[x..y + 1]
  {
    forall i | x <= i <= y ensures s1[i] == s0[i] {
      if y < lo {
        assert s1[i] == s1[..lo][i] && s0[i] == s0[..lo][i];
      } else {
        assert s1[i] == s1[hi + 1..][i - hi - 1] && s0[i] == s0[hi + 1..][i - hi - 1];
      }
    }
  }

  /** The last merge, from d back into a. */
  method MergeBack(a: array<real>, b: int, q: int, e: int, d: array<real>, cutOff: int, ghost a0: seq<real>,
                   ghost m1: multiset<real>, ghost m2: multiset<real>)
    requires a != d && a.Length == d.Length == |a0| && 0 <= b <= q < e < a.Length
    requires SortedOf(d[b..q + 1], m1) && SortedOf(d[q + 1..e + 1], m2) && Elsewhere(a0, a[..], b, e)
    requires m1 == multiset(a0[b..q + 1]) && m2 == multiset(a0[q + 1..e + 1])
    modifies a
    ensures Rearranged(a0, a[..], b, e)
  {
    ghost var a1 := a[..];
    hide Sorted;
    Merge(d, b, q, q + 1, e, a, b, cutOff, d[b..q + 1], d[q + 1..e + 1]);
    assert a0[b..e + 1] == a0[b..q + 1] + a0[q + 1..e + 1];
    hide Written, SortedOf, Elsewhere;
    WrittenElsewhere(a1, a[..], b, e, m1 + m2);
    Within(a0, a1, a[..], b, e, b, e);
  }

  lemma LastAtMost(s: seq<real>, t: seq<real>)
    requires s != [] && t != [] && Sorted(t) && multiset(s) == multiset(t)
    ensures s[|s| - 1] <= t[|t| - 1]
  {
    assert s[|s| - 1] in multiset(s);
    assert s[|s| - 1] in t;
  }

  lemma WithoutLast(s: seq<real>)
    requires s != []
    ensures multiset(s[..|s| - 1]) == multiset(s) - multiset{s[|s| - 1]} && s == s[..|s| - 1] + [s[|s| - 1]]
  {
    assert s == s[..|s| - 1] + [s[|s| - 1]];
  }

  /** There is one sorted arrangement of the elements of a multiset. */
  lemma {:induction false} SortedIsUnique(s: seq<real>, t: seq<real>)
    requires Sorted(s) && Sorted(t) && multiset(s) == multiset(t)
    ensures s == t
    decreases |s|
  {
    SameLength(s, t);
    if s != [] {
      var n := |s| - 1;
      LastAtMost(s, t);
      LastAtMost(t, s);
      WithoutLast(s);
      WithoutLast(t);
      assert Sorted(s[..n]) && Sorted(t[..n]);
      hide Sorted;
      SortedIsUnique(s[..n], t[..n]);
    }
  }

  lemma SameLength(s: seq<real>, t: seq<real>)
    requires multiset(s) == multiset(t)
    ensures |s| == |t|
  {
    assert |multiset(s)| == |s| && |multiset(t)| == |t|;
  }

  /** What a call of the sort leaves in its range depends on that range alone, whatever the rest of the arrays holds. */
  lemma OwnRange(s0: seq<real>, s1: seq<real>, t0: seq<real>, t1: seq<real>, b: int, e: int)
    requires Rearranged(s0, s1, b, e) && Rearranged(t0, t1, b, e) && s0[b..e + 1] == t0[b..e + 1]
    ensures s1[b..e + 1] == t1[b..e + 1]
  {
    SortedIsUnique(s1[b..e + 1], t1[b..e + 1]);
  }

  /** So does a merge: it writes the one sorted arrangement of the elements of its two ranges. */
  lemma OneMerge(s0: seq<real>, s1: seq<real>, t0: seq<real>, t1: seq<real>, j: int, n: int, m: multiset<real>)
    requires Written(s0, s1, j, n, m) && Written(t0, t1, j, n, m)
    ensures s1[j..j + n] == t1[j..j + n]
  {
    SortedIsUnique(s1[j..j + n], t1[j..j + n]);
  }

  /** Calls on neighbouring ranges that are spawned side by side leave the same array whichever comes first. */
  lemma EitherOrder(s0: seq<real>, s1: seq<real>, s2: seq<real>, t1: seq<real>, t2: seq<real>, b: int, q: int, e: int)
    requires Rearranged(s0, s1, b, q) && Rearranged(s1, s2, q + 1, e)
    requires Rearranged(s0, t1, q + 1, e) && Rearranged(t1, t2, b, q)
    ensures s2 == t2
  {
    Outside(s0, s1, b, q, q + 1, e);
    Outside(s1, s2, q + 1, e, b, q);
    Outside(s0, t1, q + 1, e, b, q);
    Outside(t1, t2, b, q, q + 1, e);
    OwnRange(s0, s1, t1, t2, b, q);
    OwnRange(s1, s2, s0, t1, q + 1, e);
    TwoElsewhere(s0, s1, s2, b, q, e);
    forall i | 0 <= i < |s0| ensures s2[i] == t2[i] {
      if b <= i <= q {
        assert s2[i] == s2[b..q + 1][i - b] && t2[i] == t2[b..q + 1][i - b];
      } else if q < i <= e {
        assert s2[i] == s2[q + 1..e + 1][i - q - 1] && t2[i] == t2[q + 1..e + 1][i - q - 1];
      } else {
        Untouched(s0, s2, b, e, i);
        Untouched(s0, t1, q + 1, e, i);
        Untouched(t1, t2, b, q, i);
      }
    }
  }

  lemma Untouched(s0: seq<real>, s1: seq<real>, lo: int, hi: int, i: int)
    requires Elsewhere(s0, s1, lo, hi) && 0 <= i < |s0| && (i < lo || hi < i)
    ensures s1[i] == s0[i]
  {
    Outside(s0, s1, lo, hi, i, i);
    assert s1[i] == s1[i..i + 1][0] && s0[i] == s0[i..i + 1][0];
  }

  /** The benchmark's call: the whole array is sorted. */
  method DoIt(a: array<real>, d: array<real>, cutOff: int)
    requires a != d && a.Length == d.Length
    modifies a, d
    ensures Sorted(a[..]) && multiset(a[..]) == multiset(old(a[..]))
  {
    ghost var a0 := a[..];
    Sort(a, 0, a.Length - 1, d, 0, cutOff);
    assert a[..][0..a.Length] == a[..] && a0[0..a.Length] == a0;
  }
}
