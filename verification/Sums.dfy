/**
 Finite sums.

 Every total in the system (ledger balances, net positions, token supply, profit and
 loss) is a sum of a named weight over a table or over a set of keys. `Sum` runs over a
 sequence, `SumSet` over a set, and `SumByKey` is the exchange law between the two.
 */
module Sums {

  function Sum<T>(xs: seq<T>, f: T -> int): int {
    if xs == [] then 0 else Sum(xs[..|xs| - 1], f) + f(xs[|xs| - 1])
  }

  ghost function SumSet<K>(s: set<K>, f: K -> int): int {
    if s == {} then 0 else var k :| k in s; f(k) + SumSet(s - {k}, f)
  }

  /** The weight f, restricted to the elements whose key is k. */
  function Keyed<K(==), T>(key: T -> K, f: T -> int, k: K): T -> int {
    x => if key(x) == k then f(x) else 0
  }

  /** For each key, the total weight of the elements that carry it. */
  ghost function Totals<K, T>(xs: seq<T>, key: T -> K, f: T -> int): K -> int {
    k => Sum(xs, Keyed(key, f, k))
  }

  predicate Distinct<T(==)>(xs: seq<T>) {
    forall i, j :: 0 <= i < j < |xs| ==> xs[i] != xs[j]
  }

  function Elements<T>(xs: seq<T>): set<T> {
    set x | x in xs
  }

  lemma ElementsSnoc<T>(xs: seq<T>, x: T)
    ensures Elements(xs + [x]) == Elements(xs) + {x}
    ensures Distinct(xs + [x]) <==> Distinct(xs) && x !in xs
  {
    assert forall y :: y in xs + [x] <==> y in xs || y == x;
    if Distinct(xs + [x]) {
      forall i | 0 <= i < |xs|
        ensures xs[i] != x
      {
        assert (xs + [x])[i] != (xs + [x])[|xs|];
      }
      assert forall i :: 0 <= i < |xs| ==> (xs + [x])[i] == xs[i];
    }
  }

  // ---- Sequences ----

  lemma SumSnoc<T>(xs: seq<T>, x: T, f: T -> int)
    ensures Sum(xs + [x], f) == Sum(xs, f) + f(x)
  {
    assert (xs + [x])[..|xs|] == xs;
  }

  lemma {:induction false} SumConcat<T>(xs: seq<T>, ys: seq<T>, f: T -> int)
    ensures Sum(xs + ys, f) == Sum(xs, f) + Sum(ys, f)
  {
    if ys == [] {
      assert xs + ys == xs;
    } else {
      var n := |ys| - 1;
      assert xs + ys == (xs + ys[..n]) + [ys[n]];
      SumSnoc(xs + ys[..n], ys[n], f);
      SumConcat(xs, ys[..n], f);
    }
  }

  /** Pointwise f(xs) = g(ys) + h(zs) gives the same equation between the sums. */
  lemma {:induction false} SumSplit<A, B, C>(xs: seq<A>, f: A -> int, ys: seq<B>, g: B -> int, zs: seq<C>, h: C -> int)
    requires |xs| == |ys| == |zs|
    requires forall i :: 0 <= i < |xs| ==> f(xs[i]) == g(ys[i]) + h(zs[i])
    ensures Sum(xs, f) == Sum(ys, g) + Sum(zs, h)
  {
    if xs != [] {
      var n := |xs| - 1;
      SumSplit(xs[..n], f, ys[..n], g, zs[..n], h);
    }
  }

  lemma {:induction false} SumAgree<A, B>(xs: seq<A>, f: A -> int, ys: seq<B>, g: B -> int)
    requires |xs| == |ys|
    requires forall i :: 0 <= i < |xs| ==> f(xs[i]) == g(ys[i])
    ensures Sum(xs, f) == Sum(ys, g)
  {
    if xs != [] {
      SumAgree(xs[..|xs| - 1], f, ys[..|xs| - 1], g);
    }
  }

  lemma {:induction false} SumAtMost<A, B>(xs: seq<A>, f: A -> int, ys: seq<B>, g: B -> int)
    requires |xs| == |ys|
    requires forall i :: 0 <= i < |xs| ==> f(xs[i]) <= g(ys[i])
    ensures Sum(xs, f) <= Sum(ys, g)
  {
    if xs != [] {
      SumAtMost(xs[..|xs| - 1], f, ys[..|xs| - 1], g);
    }
  }

  lemma {:induction false} SumZero<T>(xs: seq<T>, f: T -> int)
    requires forall i :: 0 <= i < |xs| ==> f(xs[i]) == 0
    ensures Sum(xs, f) == 0
  {
    if xs != [] {
      SumZero(xs[..|xs| - 1], f);
    }
  }

  lemma {:induction false} SumNonNegative<T>(xs: seq<T>, f: T -> int)
    requires forall i :: 0 <= i < |xs| ==> f(xs[i]) >= 0
    ensures Sum(xs, f) >= 0
    ensures forall i :: 0 <= i < |xs| ==> f(xs[i]) <= Sum(xs, f)
  {
    if xs != [] {
      SumNonNegative(xs[..|xs| - 1], f);
    }
  }

  lemma {:induction false} SumUpdate<T>(xs: seq<T>, i: nat, x: T, f: T -> int)
    requires i < |xs|
    ensures Sum(xs[i := x], f) == Sum(xs, f) - f(xs[i]) + f(x)
  {
    var n := |xs| - 1;
    if i < n {
      assert xs[i := x][..n] == xs[..n][i := x];
      SumUpdate(xs[..n], i, x, f);
    } else {
      assert xs[i := x][..n] == xs[..n];
    }
  }

  lemma {:induction false} SumRemove<T>(xs: seq<T>, i: nat, f: T -> int)
    requires i < |xs|
    ensures Sum(xs, f) == f(xs[i]) + Sum(xs[..i] + xs[i + 1..], f)
  {
    assert xs == (xs[..i] + [xs[i]]) + xs[i + 1..];
    SumConcat(xs[..i] + [xs[i]], xs[i + 1..], f);
    SumSnoc(xs[..i], xs[i], f);
    SumConcat(xs[..i], xs[i + 1..], f);
  }

  /** A sum with one non-zero term. */
  lemma SumSingle<T>(xs: seq<T>, w: nat, f: T -> int)
    requires w < |xs|
    requires forall i :: 0 <= i < |xs| && i != w ==> f(xs[i]) == 0
    ensures Sum(xs, f) == f(xs[w])
  {
    SumRemove(xs, w, f);
    var rest := xs[..w] + xs[w + 1..];
    assert forall i :: 0 <= i < |rest| ==> rest[i] == xs[if i < w then i else i + 1];
    SumZero(rest, f);
  }

  lemma PermutedRest<T>(xs: seq<T>, ys: seq<T>, i: nat)
    requires multiset(xs) == multiset(ys) && xs != []
    requires i < |ys| && ys[i] == xs[|xs| - 1]
    ensures multiset(xs[..|xs| - 1]) == multiset(ys[..i] + ys[i + 1..])
  {
    var n := |xs| - 1;
    assert xs == xs[..n] + [xs[n]];
    assert ys == ys[..i] + [ys[i]] + ys[i + 1..];
    assert multiset(xs[..n]) == multiset(xs) - multiset{xs[n]};
    assert multiset(ys[..i] + ys[i + 1..]) == multiset(ys) - multiset{ys[i]};
  }

  /** A sum does not depend on the order of its terms. */
  lemma {:induction false} SumPermuted<T>(xs: seq<T>, ys: seq<T>, f: T -> int)
    requires multiset(xs) == multiset(ys)
    ensures Sum(xs, f) == Sum(ys, f)
  {
    if xs == [] {
      assert |multiset(ys)| == 0;
    } else {
      var n := |xs| - 1;
      assert xs[n] in multiset(ys);
      var i :| 0 <= i < |ys| && ys[i] == xs[n];
      var rest := ys[..i] + ys[i + 1..];
      PermutedRest(xs, ys, i);
      SumPermuted(xs[..n], rest, f);
      SumRemove(ys, i, f);
    }
  }

  // ---- Sets ----

  /** Any element can be taken out first. */
  lemma {:induction false} SumSetRemove<K>(s: set<K>, k: K, f: K -> int)
    requires k in s
    ensures SumSet(s, f) == f(k) + SumSet(s - {k}, f)
    decreases s
  {
    var c :| c in s && SumSet(s, f) == f(c) + SumSet(s - {c}, f);
    if c != k {
      SumSetRemove(s - {c}, k, f);
      SumSetRemove(s - {k}, c, f);
      assert s - {c} - {k} == s - {k} - {c};
    }
  }

  lemma {:induction false} SumSetSplit<K>(s: set<K>, f: K -> int, g: K -> int, h: K -> int)
    requires forall k :: k in s ==> f(k) == g(k) + h(k)
    ensures SumSet(s, f) == SumSet(s, g) + SumSet(s, h)
  {
    if s != {} {
      var k :| k in s;
      SumSetSplit(s - {k}, f, g, h);
      SumSetRemove(s, k, f);
      SumSetRemove(s, k, g);
      SumSetRemove(s, k, h);
    }
  }

  lemma {:induction false} SumSetAtMost<K>(s: set<K>, f: K -> int, g: K -> int)
    requires forall k :: k in s ==> f(k) <= g(k)
    ensures SumSet(s, f) <= SumSet(s, g)
  {
    if s != {} {
      var k :| k in s;
      SumSetAtMost(s - {k}, f, g);
      SumSetRemove(s, k, f);
      SumSetRemove(s, k, g);
    }
  }

  lemma SumSetAgree<K>(s: set<K>, f: K -> int, g: K -> int)
    requires forall k :: k in s ==> f(k) == g(k)
    ensures SumSet(s, f) == SumSet(s, g)
  {
    SumSetAtMost(s, f, g);
    SumSetAtMost(s, g, f);
  }

  lemma {:induction false} SumSetZero<K>(s: set<K>, f: K -> int)
    requires forall k :: k in s ==> f(k) == 0
    ensures SumSet(s, f) == 0
  {
    if s != {} {
      var k :| k in s;
      SumSetZero(s - {k}, f);
      SumSetRemove(s, k, f);
    }
  }

  lemma {:induction false} SumSetUnion<K>(s: set<K>, t: set<K>, f: K -> int)
    requires s !! t
    ensures SumSet(s + t, f) == SumSet(s, f) + SumSet(t, f)
  {
    if s == {} {
      assert s + t == t;
    } else {
      var k :| k in s;
      SumSetUnion(s - {k}, t, f);
      SumSetRemove(s, k, f);
      SumSetRemove(s + t, k, f);
      assert s + t - {k} == (s - {k}) + t;
    }
  }

  /** Keys of weight zero can be added to the index set. */
  lemma SumSetWiden<K>(s: set<K>, t: set<K>, f: K -> int)
    requires s <= t
    requires forall k :: k in t - s ==> f(k) == 0
    ensures SumSet(s, f) == SumSet(t, f)
  {
    SumSetUnion(s, t - s, f);
    SumSetZero(t - s, f);
    assert s + (t - s) == t;
  }

  lemma {:induction false} CountDistinct<T>(xs: seq<T>)
    ensures |Elements(xs)| <= |xs|
    ensures |Elements(xs)| == |xs| <==> Distinct(xs)
  {
    if xs != [] {
      var n := |xs| - 1;
      CountDistinct(xs[..n]);
      assert xs == xs[..n] + [xs[n]];
      ElementsSnoc(xs[..n], xs[n]);
      if xs[n] in xs[..n] {
        assert Elements(xs) == Elements(xs[..n]);
      } else {
        assert xs[n] !in Elements(xs[..n]);
      }
    }
  }

  /** Summing a list without duplicates is summing the set of its elements. */
  lemma {:induction false} SumDistinct<T>(xs: seq<T>, f: T -> int)
    requires Distinct(xs)
    ensures Sum(xs, f) == SumSet(Elements(xs), f)
  {
    if xs != [] {
      var n := |xs| - 1;
      SumDistinct(xs[..n], f);
      assert xs[n] in Elements(xs);
      SumSetRemove(Elements(xs), xs[n], f);
      assert Elements(xs[..n]) == Elements(xs) - {xs[n]} by {
        assert xs == xs[..n] + [xs[n]];
      }
    }
  }

  lemma {:induction false} SumSetSingle<K>(s: set<K>, k: K, f: K -> int)
    requires k in s
    requires forall x :: x in s && x != k ==> f(x) == 0
    ensures SumSet(s, f) == f(k)
  {
    SumSetRemove(s, k, f);
    SumSetZero(s - {k}, f);
  }

  /** Grouping a table by a key and adding the groups gives the whole table. */
  lemma {:induction false} SumByKey<K, T>(s: set<K>, xs: seq<T>, key: T -> K, f: T -> int)
    requires forall i :: 0 <= i < |xs| && f(xs[i]) != 0 ==> key(xs[i]) in s
    ensures SumSet(s, Totals(xs, key, f)) == Sum(xs, f)
  {
    if xs == [] {
      SumSetZero(s, Totals(xs, key, f));
    } else {
      var n := |xs| - 1;
      var last := xs[n];
      SumByKey(s, xs[..n], key, f);
      var single := k => if key(last) == k then f(last) else 0;
      forall k | k in s
        ensures Totals(xs, key, f)(k) == Totals(xs[..n], key, f)(k) + single(k)
      {
      }
      SumSetSplit(s, Totals(xs, key, f), Totals(xs[..n], key, f), single);
      if f(last) == 0 {
        SumSetZero(s, single);
      } else {
        SumSetSingle(s, key(last), single);
      }
    }
  }
}
