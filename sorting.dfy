/**
 * `Array.prototype.sort(compare)`, which ECMAScript requires to be stable: a stable
 * insertion sort, once as a function on sequences (what a sorted copy contains) and
 * once in place on an array (what `rows.sort(...)` does to the array it is called on).
 */
module Sorting {
  import opened Seqs

  /** The comparator sorts `a` no later than `b`. */
  predicate Precedes<T>(cmp: (T, T) -> int, a: T, b: T) {
    cmp(a, b) <= 0
  }

  /**
   * A consistent comparator: any two values are ordered one way or the other,
   * and ordering is transitive (a total preorder).
   */
  ghost predicate TotalPreorder<T(!new)>(cmp: (T, T) -> int) {
    && (forall a, b :: Precedes(cmp, a, b) || Precedes(cmp, b, a))
    && (forall a, b, c :: Precedes(cmp, a, b) && Precedes(cmp, b, c) ==> Precedes(cmp, a, c))
  }

  /** Every earlier element sorts no later than every later one. */
  ghost predicate SortedBy<T>(s: seq<T>, cmp: (T, T) -> int) {
    forall i, j :: 0 <= i < j < |s| ==> Precedes(cmp, s[i], s[j])
  }

  /** `a` and `b` compare as equal (each sorts no later than the other). */
  predicate Tied<T>(cmp: (T, T) -> int, a: T, b: T) {
    Precedes(cmp, a, b) && Precedes(cmp, b, a)
  }

  /** The elements that compare as equal to `k`. */
  function TiedWith<T>(cmp: (T, T) -> int, k: T): T -> bool {
    x => Tied(cmp, k, x)
  }

  /** Places `x` in front of the first element it sorts no later than. */
  function Insert<T>(x: T, s: seq<T>, cmp: (T, T) -> int): (r: seq<T>)
    ensures |r| == |s| + 1
    decreases |s|
  {
    if s == [] || Precedes(cmp, x, s[0]) then [x] + s
    else [s[0]] + Insert(x, s[1..], cmp)
  }

  lemma {:induction false} InsertMultiset<T>(x: T, s: seq<T>, cmp: (T, T) -> int)
    ensures multiset(Insert(x, s, cmp)) == multiset(s) + multiset{x}
    decreases |s|
  {
    if s != [] && !Precedes(cmp, x, s[0]) {
      InsertMultiset(x, s[1..], cmp);
      assert s == [s[0]] + s[1..];
    }
  }

  /** The sorted copy `[...s].sort(cmp)`. */
  function SortBy<T>(s: seq<T>, cmp: (T, T) -> int): (r: seq<T>)
    ensures |r| == |s|
    decreases |s|
  {
    if s == [] then [] else Insert(s[0], SortBy(s[1..], cmp), cmp)
  }

  /** A sorted copy holds exactly the elements of `s`, each as often: a permutation. */
  lemma {:induction false} SortByPermutation<T>(s: seq<T>, cmp: (T, T) -> int)
    ensures multiset(SortBy(s, cmp)) == multiset(s)
    decreases |s|
  {
    if s != [] {
      SortByPermutation(s[1..], cmp);
      InsertMultiset(s[0], SortBy(s[1..], cmp), cmp);
      assert s == [s[0]] + s[1..];
    }
  }

  lemma {:induction false} InsertSorted<T(!new)>(x: T, s: seq<T>, cmp: (T, T) -> int)
    requires TotalPreorder(cmp)
    requires SortedBy(s, cmp)
    ensures SortedBy(Insert(x, s, cmp), cmp)
    decreases |s|
  {
    if s != [] && !Precedes(cmp, x, s[0]) {
      InsertSorted(x, s[1..], cmp);
      var r := Insert(x, s, cmp);
      var t := Insert(x, s[1..], cmp);
      assert r == [s[0]] + t;
      InsertMultiset(x, s[1..], cmp);
      forall j | 0 < j < |r|
        ensures Precedes(cmp, s[0], r[j])
      {
        assert r[j] == t[j - 1];
        assert r[j] in multiset(t);
        if r[j] == x {
        } else {
          assert r[j] in multiset(s[1..]);
          var k :| 0 <= k < |s[1..]| && s[1..][k] == r[j];
          assert s[k + 1] == r[j];
        }
      }
    }
  }

  /** A sorted copy is in order under a consistent comparator. */
  lemma {:induction false} SortBySorted<T(!new)>(s: seq<T>, cmp: (T, T) -> int)
    requires TotalPreorder(cmp)
    ensures SortedBy(SortBy(s, cmp), cmp)
    decreases |s|
  {
    if s != [] {
      SortBySorted(s[1..], cmp);
      InsertSorted(s[0], SortBy(s[1..], cmp), cmp);
    }
  }

  /**
   * Inserting `x` passes only elements that do not tie with `x`, so the elements tied
   * with any `k` keep their relative order.
   */
  lemma {:induction false} FilterInsert<T(!new)>(x: T, s: seq<T>, cmp: (T, T) -> int, k: T)
    requires TotalPreorder(cmp)
    ensures Filter(Insert(x, s, cmp), TiedWith(cmp, k))
         == (if Tied(cmp, k, x) then [x] else []) + Filter(s, TiedWith(cmp, k))
    decreases |s|
  {
    var q := TiedWith(cmp, k);
    if s == [] || Precedes(cmp, x, s[0]) {
      assert Insert(x, s, cmp) == [x] + s;
      FilterAppend([x], s, q);
    } else {
      FilterInsert(x, s[1..], cmp, k);
      assert Insert(x, s, cmp) == [s[0]] + Insert(x, s[1..], cmp);
      FilterAppend([s[0]], Insert(x, s[1..], cmp), q);
      FilterAppend([s[0]], s[1..], q);
      assert s == [s[0]] + s[1..];
      if Tied(cmp, k, x) {
        assert !q(s[0]);
      }
    }
  }

  /**
   * Stability: the elements that compare as equal to any `k` appear in the sorted copy
   * in the order they had in `s`.
   */
  lemma {:induction false} SortByStable<T(!new)>(s: seq<T>, cmp: (T, T) -> int, k: T)
    requires TotalPreorder(cmp)
    ensures Filter(SortBy(s, cmp), TiedWith(cmp, k)) == Filter(s, TiedWith(cmp, k))
    decreases |s|
  {
    if s != [] {
      var q := TiedWith(cmp, k);
      SortByStable(s[1..], cmp, k);
      FilterInsert(s[0], SortBy(s[1..], cmp), cmp, k);
      FilterAppend([s[0]], s[1..], q);
      assert s == [s[0]] + s[1..];
    }
  }

  /** A comparator that ties everything leaves the order as it was. */
  lemma {:induction false} SortByAllTied<T>(s: seq<T>, cmp: (T, T) -> int)
    requires forall i, j :: 0 <= i < |s| && 0 <= j < |s| ==> cmp(s[i], s[j]) == 0
    ensures SortBy(s, cmp) == s
    decreases |s|
  {
    if s != [] {
      forall i, j | 0 <= i < |s[1..]| && 0 <= j < |s[1..]|
        ensures cmp(s[1..][i], s[1..][j]) == 0
      {
        assert s[1..][i] == s[i + 1] && s[1..][j] == s[j + 1];
      }
      SortByAllTied(s[1..], cmp);
      if |s| > 1 {
        assert s[1..][0] == s[1];
      }
    }
  }

  /** Inserting past a prefix that sorts strictly before `x` leaves that prefix in front. */
  lemma {:induction false} InsertPastPrefix<T>(x: T, t: seq<T>, cmp: (T, T) -> int, n: nat)
    requires n <= |t|
    requires forall m :: 0 <= m < n ==> !Precedes(cmp, x, t[m])
    ensures Insert(x, t, cmp) == t[..n] + Insert(x, t[n..], cmp)
    decreases n
  {
    if n > 0 {
      var u := t[1..];
      forall m | 0 <= m < n - 1
        ensures !Precedes(cmp, x, u[m])
      {
        assert u[m] == t[m + 1];
      }
      InsertPastPrefix(x, u, cmp, n - 1);
      assert Insert(x, t, cmp) == [t[0]] + Insert(x, u, cmp);
      assert u[..n - 1] == t[1..n];
      assert u[n - 1..] == t[n..];
      assert t[..n] == [t[0]] + t[1..n];
    }
  }

  /**
   * Moves `a[i]` rightwards over the sorted run `a[i+1..]` until it reaches the first
   * element it sorts no later than: the inner loop of the in-place insertion sort.
   */
  method InsertInPlace<T>(a: array<T>, i: nat, cmp: (T, T) -> int)
    requires i < a.Length
    modifies a
    ensures a[..i] == old(a[..i])
    ensures a[i..] == Insert(old(a[i]), old(a[i + 1..]), cmp)
  {
    var x := a[i];
    ghost var s := a[..];
    var j := ShiftPast(a, i, cmp);
    a[j] := x;
    InsertByShifting(s, a[..], i, j, cmp);
  }

  /**
   * Shifting the elements that `s[i]` does not precede one place left and putting
   * `s[i]` into the gap at `j` inserts it into the rest of `s`.
   */
  lemma InsertByShifting<T>(s: seq<T>, r: seq<T>, i: nat, j: nat, cmp: (T, T) -> int)
    requires i <= j < |s| == |r|
    requires forall m :: 0 <= m < i ==> r[m] == s[m]
    requires forall m :: i <= m < j ==> r[m] == s[m + 1]
    requires r[j] == s[i]
    requires forall m :: j < m < |s| ==> r[m] == s[m]
    requires forall m :: i < m <= j ==> !Precedes(cmp, s[i], s[m])
    requires j + 1 == |s| || Precedes(cmp, s[i], s[j + 1])
    ensures r[..i] == s[..i]
    ensures r[i..] == Insert(s[i], s[i + 1..], cmp)
  {
    var x, t, k := s[i], s[i + 1..], j - i;
    forall m | 0 <= m < k
      ensures !Precedes(cmp, x, t[m])
    {
      assert t[m] == s[m + i + 1];
    }
    if k < |t| {
      assert t[k] == s[j + 1];
    }
    assert Insert(x, t[k..], cmp) == [x] + t[k..];
    InsertPastPrefix(x, t, cmp, k);
    var want := t[..k] + [x] + t[k..];
    forall m | 0 <= m < |want|
      ensures r[i..][m] == want[m]
    {
      if m < k {
        assert want[m] == t[m];
      } else if m > k {
        assert want[m] == t[m - 1];
      }
    }
    assert r[i..] == want;
  }

  /**
   * The shifting loop of `InsertInPlace`: moves the elements after `a[i]` that `a[i]`
   * does not precede one place to the left and returns the index of the gap left behind.
   */
  method ShiftPast<T>(a: array<T>, i: nat, cmp: (T, T) -> int) returns (j: nat)
    requires i < a.Length
    modifies a
    ensures i <= j < a.Length
    ensures forall m :: 0 <= m < i ==> a[m] == old(a[m])
    ensures forall m :: i <= m < j ==> a[m] == old(a[m + 1])
    ensures forall m :: j < m < a.Length ==> a[m] == old(a[m])
    ensures forall m :: i < m <= j ==> !Precedes(cmp, old(a[i]), old(a[m]))
    ensures j + 1 == a.Length || Precedes(cmp, old(a[i]), old(a[j + 1]))
  {
    var x := a[i];
    j := i;
    while j + 1 < a.Length && !Precedes(cmp, x, a[j + 1])
      invariant i <= j < a.Length
      invariant forall m :: 0 <= m < i ==> a[m] == old(a[m])
      invariant forall m :: i <= m < j ==> a[m] == old(a[m + 1])
      invariant forall m :: j < m < a.Length ==> a[m] == old(a[m])
      invariant forall m :: i < m <= j ==> !Precedes(cmp, x, old(a[m]))
    {
      a[j] := a[j + 1];
      j := j + 1;
    }
  }

  /** `a.sort(cmp)` on the array itself: afterwards `a` holds the sorted copy of what it held. */
  method SortInPlace<T>(a: array<T>, cmp: (T, T) -> int)
    modifies a
    ensures a[..] == SortBy(old(a[..]), cmp)
  {
    ghost var s := a[..];
    var i := a.Length;
    while i > 0
      invariant 0 <= i <= a.Length
      invariant a[..i] == s[..i]
      invariant a[i..] == SortBy(s[i..], cmp)
    {
      i := i - 1;
      assert a[i] == s[i];
      assert s[i..] == [s[i]] + s[i + 1..];
      InsertInPlace(a, i, cmp);
      assert a[..i] == s[..i];
    }
    assert a[..] == a[0..];
  }
}
