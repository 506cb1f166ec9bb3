/** Sorting by a numeric key: what `sort.Slice` promises, and that the promise fixes the result. */
module Sorting {
  import opened Sums

  predicate SortedBy<T>(xs: seq<T>, key: T -> int) {
    forall i, j :: 0 <= i < j < |xs| ==> key(xs[i]) <= key(xs[j])
  }

  predicate StrictlySortedBy<T>(xs: seq<T>, key: T -> int) {
    forall i, j :: 0 <= i < j < |xs| ==> key(xs[i]) < key(xs[j])
  }

  function Insert<T>(xs: seq<T>, x: T, key: T -> int): (ys: seq<T>)
    ensures multiset(ys) == multiset(xs) + multiset{x}
  {
    if xs == [] || key(xs[|xs| - 1]) <= key(x) then xs + [x]
    else
      var n := |xs| - 1;
      assert xs == xs[..n] + [xs[n]];
      Insert(xs[..n], x, key) + [xs[n]]
  }

  lemma {:induction false} InsertSorted<T>(xs: seq<T>, x: T, key: T -> int)
    requires SortedBy(xs, key)
    ensures SortedBy(Insert(xs, x, key), key)
  {
    var n := |xs| - 1;
    if xs != [] && key(xs[n]) > key(x) {
      InsertSorted(xs[..n], x, key);
      var ys := Insert(xs[..n], x, key);
      forall i | 0 <= i < |ys|
        ensures key(ys[i]) <= key(xs[n])
      {
        assert ys[i] in multiset(ys);
        assert ys[i] == x || ys[i] in multiset(xs[..n]);
      }
    }
  }

  /** A sorted permutation of xs. */
  function SortBy<T>(xs: seq<T>, key: T -> int): (ys: seq<T>)
    ensures multiset(ys) == multiset(xs)
    ensures SortedBy(ys, key)
  {
    if xs == [] then []
    else
      assert xs == xs[..|xs| - 1] + [xs[|xs| - 1]];
      InsertSorted(SortBy(xs[..|xs| - 1], key), xs[|xs| - 1], key);
      Insert(SortBy(xs[..|xs| - 1], key), xs[|xs| - 1], key)
  }

  /** Less by key, or an equal key and itself less. */
  predicate Precedes(x: nat, y: nat, key: nat -> int) {
    key(x) < key(y) || (key(x) == key(y) && x < y)
  }

  /** Sorted by key, and among equal keys by the elements themselves. */
  predicate SortedWithTies(xs: seq<nat>, key: nat -> int) {
    forall i, j :: 0 <= i < j < |xs| ==> Precedes(xs[i], xs[j], key)
  }

  lemma InsertedMembers<T>(xs: seq<T>, x: T, key: T -> int, y: T)
    requires y in Insert(xs, x, key)
    ensures y == x || y in xs
  {
    assert y in multiset(Insert(xs, x, key));
    assert y in multiset(xs) + multiset{x};
  }

  lemma {:induction false} InsertKeepsTies(xs: seq<nat>, x: nat, key: nat -> int)
    requires SortedWithTies(xs, key)
    requires forall y :: y in xs ==> y < x
    ensures SortedWithTies(Insert(xs, x, key), key)
  {
    var n := |xs| - 1;
    if xs != [] && key(xs[n]) > key(x) {
      assert forall y :: y in xs[..n] ==> y in xs;
      InsertKeepsTies(xs[..n], x, key);
      var ys := Insert(xs[..n], x, key);
      forall i | 0 <= i < |ys|
        ensures Precedes(ys[i], xs[n], key)
      {
        InsertedMembers(xs[..n], x, key, ys[i]);
      }
    } else {
      forall i | 0 <= i < |xs|
        ensures Precedes(xs[i], x, key)
      {
        assert i == n || Precedes(xs[i], xs[n], key);
        assert xs[i] in xs;
      }
    }
  }

  /** Sorting a rising list keeps the order of elements with equal keys. */
  lemma {:induction false} SortIsStable(xs: seq<nat>, key: nat -> int)
    requires forall i, j :: 0 <= i < j < |xs| ==> xs[i] < xs[j]
    ensures SortedWithTies(SortBy(xs, key), key)
  {
    if xs != [] {
      var n := |xs| - 1;
      SortIsStable(xs[..n], key);
      var ys := SortBy(xs[..n], key);
      forall y | y in ys
        ensures y < xs[n]
      {
        assert y in multiset(ys);
        assert y in multiset(xs[..n]);
      }
      InsertKeepsTies(ys, xs[n], key);
    }
  }

  /** The first element of a strictly sorted list is its least. */
  lemma LeastFirst<T>(xs: seq<T>, x: T, key: T -> int)
    requires StrictlySortedBy(xs, key)
    requires x in xs
    ensures key(xs[0]) <= key(x)
    ensures key(xs[0]) == key(x) ==> x == xs[0]
  {
    var i :| 0 <= i < |xs| && xs[i] == x;
  }

  /** Two strictly sorted lists with the same elements are the same list. */
  lemma {:induction false} StrictlySortedUnique<T>(xs: seq<T>, ys: seq<T>, key: T -> int)
    requires StrictlySortedBy(xs, key) && StrictlySortedBy(ys, key)
    requires forall x :: x in xs <==> x in ys
    ensures xs == ys
  {
    assert (xs != [] ==> xs[0] in xs) && (ys != [] ==> ys[0] in ys);
    if xs != [] {
      LeastFirst(xs, ys[0], key);
      LeastFirst(ys, xs[0], key);
      assert xs[0] == ys[0];
      forall x
        ensures x in xs[1..] <==> x in ys[1..]
      {
        TailMembers(xs, x, key);
        TailMembers(ys, x, key);
      }
      StrictlySortedUnique(xs[1..], ys[1..], key);
      assert xs == [xs[0]] + xs[1..] && ys == [ys[0]] + ys[1..];
    }
  }

  lemma TailMembers<T>(xs: seq<T>, x: T, key: T -> int)
    requires StrictlySortedBy(xs, key) && xs != []
    ensures x in xs[1..] <==> x in xs && x != xs[0]
  {
    if x in xs && x != xs[0] {
      var i :| 0 <= i < |xs| && xs[i] == x;
      assert xs[1..][i - 1] == x;
    }
    if x in xs[1..] {
      var i :| 0 <= i < |xs[1..]| && xs[1..][i] == x;
      assert xs[i + 1] == x && key(xs[0]) < key(xs[i + 1]);
    }
  }

  lemma {:induction false} PermutationKeepsDistinct<T>(xs: seq<T>, ys: seq<T>)
    requires multiset(xs) == multiset(ys)
    requires Distinct(xs)
    ensures Distinct(ys)
  {
    forall i, j | 0 <= i < j < |ys|
      ensures ys[i] != ys[j]
    {
      if ys[i] == ys[j] {
        assert ys == ys[..i] + [ys[i]] + ys[i + 1..j] + [ys[j]] + ys[j + 1..];
        assert multiset(ys)[ys[i]] >= 2;
        DistinctCount(xs, ys[i]);
      }
    }
  }

  lemma {:induction false} DistinctCount<T>(xs: seq<T>, x: T)
    requires Distinct(xs)
    ensures multiset(xs)[x] <= 1
  {
    if xs != [] {
      var n := |xs| - 1;
      DistinctCount(xs[..n], x);
      assert xs == xs[..n] + [xs[n]];
      if xs[n] == x {
        assert x !in xs[..n];
      }
    }
  }

  lemma RemovedAt<T>(ys: seq<T>, i: nat)
    requires Distinct(ys) && i < |ys|
    ensures var rest := ys[..i] + ys[i + 1..];
      && Distinct(rest)
      && (forall x :: x in rest <==> x in ys && x != ys[i])
      && multiset(ys) == multiset(rest) + multiset{ys[i]}
  {
    var rest := ys[..i] + ys[i + 1..];
    assert ys == ys[..i] + [ys[i]] + ys[i + 1..];
    forall j, k | 0 <= j < k < |rest|
      ensures rest[j] != rest[k]
    {
      assert rest[j] == ys[if j < i then j else j + 1] && rest[k] == ys[if k < i then k else k + 1];
    }
    forall x
      ensures x in rest <==> x in ys && x != ys[i]
    {
      if x in ys && x != ys[i] {
        var j :| 0 <= j < |ys| && ys[j] == x;
        assert rest[if j < i then j else j - 1] == x;
      }
      if x in rest {
        var j :| 0 <= j < |rest| && rest[j] == x;
        assert ys[if j < i then j else j + 1] == x;
      }
    }
  }

  /** Lists without duplicates that have the same elements are permutations of one another. */
  lemma {:induction false} SameElementsPermuted<T>(xs: seq<T>, ys: seq<T>)
    requires Distinct(xs) && Distinct(ys)
    requires forall x :: x in xs <==> x in ys
    ensures multiset(xs) == multiset(ys)
  {
    assert ys != [] ==> ys[0] in ys;
    if xs == [] {
      assert ys == [];
    } else {
      var n := |xs| - 1;
      assert xs[n] in xs;
      var i :| 0 <= i < |ys| && ys[i] == xs[n];
      RemovedAt(xs, n);
      RemovedAt(ys, i);
      assert xs[..n] + xs[n + 1..] == xs[..n];
      SameElementsPermuted(xs[..n], ys[..i] + ys[i + 1..]);
    }
  }
}
