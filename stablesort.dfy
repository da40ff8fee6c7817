/** Stable sorting by an integer key.

    JavaScript's Array.prototype.sort is stable, so the leaderboards keep runs
    with equal times in the order they were fetched. The specification is a
    functional insertion sort that inserts each element after every element
    whose key is not larger; the in-place method below performs the same
    insertion on an array. */
module StableSort {
  import opened Seqs

  predicate SortedBy<T>(s: seq<T>, key: T -> int) {
    forall i, j :: 0 <= i < j < |s| ==> key(s[i]) <= key(s[j])
  }

  /** The elements of `s` whose key is `v`, in their order in `s`. */
  function KeyClass<T>(s: seq<T>, key: T -> int, v: int): seq<T> {
    Filter(s, x => key(x) == v)
  }

  /** The position at which `x` is inserted into `s`: just after the last
      element whose key is at most key(x), so that only elements with a
      strictly larger key follow it. */
  function InsertionPoint<T>(x: T, s: seq<T>, key: T -> int): (p: nat)
    ensures p <= |s|
    ensures p == 0 || key(s[p - 1]) <= key(x)
    ensures forall k :: p <= k < |s| ==> key(s[k]) > key(x)
    decreases |s|
  {
    if s == [] || key(s[|s| - 1]) <= key(x) then |s|
    else InsertionPoint(x, s[..|s| - 1], key)
  }

  /** The two properties of InsertionPoint determine it. */
  lemma InsertionPointUnique<T>(x: T, s: seq<T>, key: T -> int, j: nat)
    requires j <= |s|
    requires j == 0 || key(s[j - 1]) <= key(x)
    requires forall k :: j <= k < |s| ==> key(s[k]) > key(x)
    ensures j == InsertionPoint(x, s, key)
  {
  }

  function Insert<T>(x: T, s: seq<T>, key: T -> int): (r: seq<T>)
    ensures |r| == |s| + 1
  {
    var p := InsertionPoint(x, s, key);
    s[..p] + [x] + s[p..]
  }

  /** Insertion sort, taking the elements of `s` from left to right. */
  function Sort<T>(s: seq<T>, key: T -> int): (r: seq<T>)
    ensures |r| == |s|
    decreases |s|
  {
    if s == [] then [] else Insert(s[|s| - 1], Sort(s[..|s| - 1], key), key)
  }

  /** Inserting into a sorted sequence keeps it sorted. */
  lemma InsertSorted<T>(x: T, s: seq<T>, key: T -> int)
    requires SortedBy(s, key)
    ensures SortedBy(Insert(x, s, key), key)
  {
    var p := InsertionPoint(x, s, key);
    var r := Insert(x, s, key);
    forall i, j | 0 <= i < j < |r| ensures key(r[i]) <= key(r[j]) {
      if i < p && j < p {
        assert r[i] == s[i] && r[j] == s[j];
      } else if i < p {
        assert r[i] == s[i] && key(s[i]) <= key(s[p - 1]);
        if j > p { assert r[j] == s[j - 1]; }
      } else if i > p {
        assert r[i] == s[i - 1] && r[j] == s[j - 1];
      } else {
        assert r[j] == s[j - 1];
      }
    }
  }

  /** Insertion adds `x` and nothing else. */
  lemma InsertMultiset<T>(x: T, s: seq<T>, key: T -> int)
    ensures multiset(Insert(x, s, key)) == multiset(s) + multiset{x}
  {
    var p := InsertionPoint(x, s, key);
    assert s == s[..p] + s[p..];
  }

  /** Insertion keeps every key class in order, placing `x` last in its own class. */
  lemma InsertKeyClass<T>(x: T, s: seq<T>, key: T -> int, v: int)
    ensures KeyClass(Insert(x, s, key), key, v)
         == KeyClass(s, key, v) + (if key(x) == v then [x] else [])
  {
    var p := InsertionPoint(x, s, key);
    var f := (y: T) => key(y) == v;
    var lo, hi := s[..p], s[p..];
    assert s == lo + hi;
    FilterAppend(lo, hi, f);
    FilterAppend(lo + [x], hi, f);
    FilterAppend(lo, [x], f);
    assert Filter([x], f) == Filter([], f) + (if f(x) then [x] else []);
    if key(x) == v && Filter(hi, f) != [] {
      FilterMembership(hi, f, Filter(hi, f)[0]);
    }
  }

  /** The sorted sequence is ordered by key. */
  lemma {:induction false} SortSorted<T>(s: seq<T>, key: T -> int)
    ensures SortedBy(Sort(s, key), key)
    decreases |s|
  {
    if s != [] {
      SortSorted(s[..|s| - 1], key);
      InsertSorted(s[|s| - 1], Sort(s[..|s| - 1], key), key);
    }
  }

  /** The sorted sequence is a permutation of the input. */
  lemma {:induction false} SortPermutes<T>(s: seq<T>, key: T -> int)
    ensures multiset(Sort(s, key)) == multiset(s)
    decreases |s|
  {
    if s != [] {
      var s' := s[..|s| - 1];
      SortPermutes(s', key);
      InsertMultiset(s[|s| - 1], Sort(s', key), key);
      assert s == s' + [s[|s| - 1]];
    }
  }

  /** Stability: elements with equal keys keep their relative input order. */
  lemma {:induction false} SortStable<T>(s: seq<T>, key: T -> int, v: int)
    ensures KeyClass(Sort(s, key), key, v) == KeyClass(s, key, v)
    decreases |s|
  {
    if s != [] {
      var s' := s[..|s| - 1];
      SortStable(s', key, v);
      InsertKeyClass(s[|s| - 1], Sort(s', key), key, v);
    }
  }

  /** Sorting a sequence whose keys are pairwise distinct gives strictly increasing keys. */
  lemma SortStrict<T>(s: seq<T>, key: T -> int)
    requires forall i, j :: 0 <= i < j < |s| ==> key(s[i]) != key(s[j])
    ensures forall i, j :: 0 <= i < j < |s| ==> key(Sort(s, key)[i]) < key(Sort(s, key)[j])
  {
    var r := Sort(s, key);
    SortSorted(s, key);
    forall i, j | 0 <= i < j < |r| ensures key(r[i]) < key(r[j]) {
      if key(r[i]) == key(r[j]) {
        var v := key(r[i]);
        var p := (y: T) => key(y) == v;
        FilterAtLeastTwo(r, p, i, j);
        SortStable(s, key, v);
        FilterAtMostOne(s, p);
      }
    }
  }

  /** A sequence holding `s[..j]`, then `x`, then `s[j..]`, where `j` is a valid
      insertion point of `x`, is the insertion of `x` into `s`. */
  lemma ShiftedIsInsert<T>(b: seq<T>, s: seq<T>, x: T, j: nat, key: T -> int)
    requires |b| == |s| + 1 && j <= |s|
    requires forall k :: 0 <= k < j ==> b[k] == s[k]
    requires b[j] == x
    requires forall k :: j < k < |b| ==> b[k] == s[k - 1]
    requires j == 0 || key(s[j - 1]) <= key(x)
    requires forall k :: j <= k < |s| ==> key(s[k]) > key(x)
    ensures b == Insert(x, s, key)
  {
    InsertionPointUnique(x, s, key, j);
    assert b == s[..j] + [x] + s[j..];
  }

  /** Moves a[i] left past the elements of a[..i] with a strictly larger key. */
  method InsertAt<T>(a: array<T>, i: nat, key: T -> int)
    requires i < a.Length
    modifies a
    ensures a[..i + 1] == Insert(old(a[i]), old(a[..i]), key)
    ensures a[i + 1..] == old(a[i + 1..])
  {
    var x := a[i];
    ghost var sorted := a[..i];
    var j := i;
    while j > 0 && key(a[j - 1]) > key(x)
      invariant 0 <= j <= i
      invariant forall k :: 0 <= k < j ==> a[k] == sorted[k]
      invariant forall k :: j < k <= i ==> a[k] == sorted[k - 1]
      invariant forall k :: i < k < a.Length ==> a[k] == old(a[k])
      invariant forall k :: j <= k < i ==> key(sorted[k]) > key(x)
    {
      a[j] := a[j - 1];
      j := j - 1;
    }
    a[j] := x;
    ShiftedIsInsert(a[..i + 1], sorted, x, j, key);
    assert a[i + 1..] == old(a[i + 1..]);
  }

  /** A fresh array holding `s`. */
  method ToArray<T>(s: seq<T>) returns (a: array<T>)
    ensures fresh(a) && a[..] == s
  {
    a := new T[|s|](i requires 0 <= i < |s| => s[i]);
  }

  /** Sorts `a` in place, stably, by insertion: each element moves left past
      the elements with a strictly larger key. */
  method SortInPlace<T>(a: array<T>, key: T -> int)
    modifies a
    ensures a[..] == Sort(old(a[..]), key)
  {
    ghost var input := a[..];
    var i := 0;
    while i < a.Length
      invariant 0 <= i <= a.Length
      invariant a[..i] == Sort(input[..i], key)
      invariant a[i..] == input[i..]
    {
      InsertAt(a, i, key);
      assert input[..i + 1][..i] == input[..i];
      i := i + 1;
    }
    assert input[..a.Length] == input;
  }
}
