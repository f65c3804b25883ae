/**
 * Array-method semantics the JavaScript code relies on: `filter` (an
 * order-preserving subsequence) and stable `sort` with a comparator that is
 * consistent with an integer key.
 */
module Lists {

  /** `a` is an order-preserving subsequence of `b`. */
  predicate IsSubseq<T(==)>(a: seq<T>, b: seq<T>)
    decreases |b|
  {
    if a == [] then true
    else if b == [] then false
    else (a[0] == b[0] && IsSubseq(a[1..], b[1..])) || IsSubseq(a, b[1..])
  }

  /**
   * `xs.filter(p)`: every element satisfying `p` is kept with all of its
   * copies, every other element is dropped.
   */
  function Filter<T>(xs: seq<T>, p: T -> bool): (r: seq<T>)
    ensures |r| <= |xs|
    ensures forall i :: 0 <= i < |r| ==> r[i] in xs && p(r[i])
    ensures forall i :: 0 <= i < |xs| && p(xs[i]) ==> xs[i] in r
    ensures (forall i :: 0 <= i < |xs| ==> p(xs[i])) ==> r == xs
  {
    if xs == [] then []
    else (if p(xs[0]) then [xs[0]] else []) + Filter(xs[1..], p)
  }

  /** `filter` keeps as many copies of a kept element as the input has. */
  lemma {:induction false} FilterCount<T>(xs: seq<T>, p: T -> bool, x: T)
    ensures multiset(Filter(xs, p))[x] == if p(x) then multiset(xs)[x] else 0
  {
    if xs != [] {
      FilterCount(xs[1..], p, x);
      assert xs == [xs[0]] + xs[1..];
    }
  }

  /** `FilterCount` for every element at once. */
  lemma FilterCounts<T(!new)>(xs: seq<T>, p: T -> bool)
    ensures forall x :: multiset(Filter(xs, p))[x] == if p(x) then multiset(xs)[x] else 0
  {
    forall x {
      FilterCount(xs, p, x);
    }
  }

  lemma {:induction false} FilterIsSubseq<T>(xs: seq<T>, p: T -> bool)
    ensures IsSubseq(Filter(xs, p), xs)
  {
    if xs != [] {
      FilterIsSubseq(xs[1..], p);
      var r := Filter(xs, p);
      if p(xs[0]) {
        assert r[0] == xs[0] && r[1..] == Filter(xs[1..], p);
      } else {
        assert r == Filter(xs[1..], p);
        SubseqDropFront(r, xs);
      }
    }
  }

  lemma {:induction false} SubseqDropFront<T>(a: seq<T>, b: seq<T>)
    requires b != [] && IsSubseq(a, b[1..])
    ensures IsSubseq(a, b)
  {
  }

  lemma {:induction false} FilterConcat<T>(a: seq<T>, b: seq<T>, p: T -> bool)
    ensures Filter(a + b, p) == Filter(a, p) + Filter(b, p)
  {
    if a == [] {
      assert a + b == b;
    } else {
      assert (a + b)[0] == a[0];
      assert (a + b)[1..] == a[1..] + b;
      FilterConcat(a[1..], b, p);
    }
  }

  // ---------------------------------------------------------------------------
  // Stable sorting by an integer key

  predicate SortedBy<T>(s: seq<T>, key: T -> int) {
    forall i, j :: 0 <= i < j < |s| ==> key(s[i]) <= key(s[j])
  }

  /** The elements whose key is `k`. */
  function HasKey<T>(key: T -> int, k: int): T -> bool {
    x => key(x) == k
  }

  /** Inserts `x` after every element whose key is not larger than its own. */
  function Insert<T>(x: T, s: seq<T>, key: T -> int): (r: seq<T>)
    ensures |r| == |s| + 1
    decreases |s|
  {
    if s == [] then [x]
    else if key(s[|s| - 1]) <= key(x) then s + [x]
    else Insert(x, s[..|s| - 1], key) + [s[|s| - 1]]
  }

  lemma {:induction false} InsertPermutes<T>(x: T, s: seq<T>, key: T -> int)
    ensures multiset(Insert(x, s, key)) == multiset(s) + multiset{x}
    decreases |s|
  {
    if s != [] && key(s[|s| - 1]) > key(x) {
      InsertPermutes(x, s[..|s| - 1], key);
      assert s == s[..|s| - 1] + [s[|s| - 1]];
    }
  }

  /**
   * Stable insertion sort: the reference meaning of `Array.prototype.sort`
   * (stable since ES2019) with a comparator whose sign is that of a key difference.
   */
  function SortSpec<T>(s: seq<T>, key: T -> int): (r: seq<T>)
    ensures |r| == |s|
    decreases |s|
  {
    if s == [] then [] else Insert(s[|s| - 1], SortSpec(s[..|s| - 1], key), key)
  }

  /** The result of `SortSpec` is a permutation of its input. */
  lemma {:induction false} SortSpecPermutes<T>(s: seq<T>, key: T -> int)
    ensures multiset(SortSpec(s, key)) == multiset(s)
    decreases |s|
  {
    if s != [] {
      SortSpecPermutes(s[..|s| - 1], key);
      InsertPermutes(s[|s| - 1], SortSpec(s[..|s| - 1], key), key);
      assert s == s[..|s| - 1] + [s[|s| - 1]];
    }
  }

  lemma {:induction false} InsertSorted<T>(x: T, s: seq<T>, key: T -> int)
    requires SortedBy(s, key)
    ensures SortedBy(Insert(x, s, key), key)
    decreases |s|
  {
    if s != [] && key(s[|s| - 1]) > key(x) {
      var init, last := s[..|s| - 1], s[|s| - 1];
      InsertSorted(x, init, key);
      var r' := Insert(x, init, key);
      InsertPermutes(x, init, key);
      forall i | 0 <= i < |r'|
        ensures key(r'[i]) <= key(last)
      {
        assert r'[i] in multiset(r');
        if r'[i] != x {
          assert r'[i] in multiset(init);
          var k :| 0 <= k < |init| && init[k] == r'[i];
          assert init[k] == s[k];
        }
      }
    }
  }

  /** The result of `SortSpec` is sorted by the key. */
  lemma {:induction false} SortSpecSorted<T>(s: seq<T>, key: T -> int)
    ensures SortedBy(SortSpec(s, key), key)
    decreases |s|
  {
    if s != [] {
      SortSpecSorted(s[..|s| - 1], key);
      InsertSorted(s[|s| - 1], SortSpec(s[..|s| - 1], key), key);
    }
  }

  lemma {:induction false} InsertStable<T>(x: T, s: seq<T>, key: T -> int, k: int)
    ensures Filter(Insert(x, s, key), HasKey(key, k)) == Filter(s + [x], HasKey(key, k))
    decreases |s|
  {
    var p := HasKey(key, k);
    if s != [] && key(s[|s| - 1]) > key(x) {
      var init, last := s[..|s| - 1], s[|s| - 1];
      assert s == init + [last];
      assert Insert(x, s, key) == Insert(x, init, key) + [last];
      InsertStable(x, init, key, k);
      FilterConcat(Insert(x, init, key), [last], p);
      FilterConcat(init, [x], p);
      FilterConcat(init, [last], p);
      FilterConcat(s, [x], p);
      assert Filter([x], p) == [] || Filter([last], p) == [];
    }
  }

  /** Sorting keeps the relative order of elements with equal keys. */
  lemma {:induction false} SortSpecStable<T>(s: seq<T>, key: T -> int, k: int)
    ensures Filter(SortSpec(s, key), HasKey(key, k)) == Filter(s, HasKey(key, k))
    decreases |s|
  {
    if s != [] {
      var init, last := s[..|s| - 1], s[|s| - 1];
      SortSpecStable(init, key, k);
      InsertStable(last, SortSpec(init, key), key, k);
      FilterConcat(SortSpec(init, key), [last], HasKey(key, k));
      FilterConcat(init, [last], HasKey(key, k));
      assert s == init + [last];
    }
  }

  /** `SortSpecStable` with the filter predicate passed on its own. */
  lemma SortSpecStableFor<T>(s: seq<T>, key: T -> int, p: T -> bool, k: int)
    requires p == HasKey(key, k)
    ensures Filter(SortSpec(s, key), p) == Filter(s, p)
  {
    SortSpecStable(s, key, k);
  }

  /** Where insertion lands: after the prefix `s[..j]`, before the larger-keyed rest. */
  lemma {:induction false} InsertAt<T>(x: T, s: seq<T>, key: T -> int, j: nat)
    requires j <= |s|
    requires j == 0 || key(s[j - 1]) <= key(x)
    requires forall m :: j <= m < |s| ==> key(s[m]) > key(x)
    ensures Insert(x, s, key) == s[..j] + [x] + s[j..]
    decreases |s|
  {
    if j == |s| {
      assert s[..j] == s && s[j..] == [];
    } else {
      var init, last := s[..|s| - 1], s[|s| - 1];
      assert key(last) > key(x);
      assert Insert(x, s, key) == Insert(x, init, key) + [last];
      InsertAt(x, init, key, j);
      assert init[..j] == s[..j];
      assert init[j..] + [last] == s[j..];
    }
  }

  /** Moves `a[i]` left past every larger-keyed element of the prefix `a[..i]`. */
  method InsertInPlace<T>(a: array<T>, i: nat, key: T -> int)
    requires i < a.Length
    modifies a
    ensures a[..i + 1] == Insert(old(a[i]), old(a[..i]), key)
    ensures a[i + 1..] == old(a[i + 1..])
  {
    ghost var sorted := a[..i];
    var x := a[i];
    var j := i;
    while j > 0 && key(a[j - 1]) > key(x)
      invariant 0 <= j <= i
      invariant forall m :: 0 <= m < j ==> a[m] == sorted[m]
      invariant forall m :: j < m <= i ==> a[m] == sorted[m - 1]
      invariant forall m :: i < m < a.Length ==> a[m] == old(a[m])
      invariant forall m :: j <= m < i ==> key(sorted[m]) > key(x)
    {
      a[j] := a[j - 1];
      j := j - 1;
    }
    a[j] := x;
    InsertAt(x, sorted, key, j);
    assert a[..i + 1] == sorted[..j] + [x] + sorted[j..];
  }

  /** In-place stable insertion sort of `a` by `key`. */
  method SortByKey<T>(a: array<T>, key: T -> int)
    modifies a
    ensures a[..] == SortSpec(old(a[..]), key)
  {
    ghost var s0 := a[..];
    var i := 0;
    while i < a.Length
      invariant 0 <= i <= a.Length
      invariant a[..i] == SortSpec(s0[..i], key)
      invariant forall m :: i <= m < a.Length ==> a[m] == s0[m]
    {
      InsertInPlace(a, i, key);
      assert s0[..i + 1][..i] == s0[..i];
      i := i + 1;
    }
    assert a[..] == a[..a.Length] && s0 == s0[..a.Length];
  }
}
