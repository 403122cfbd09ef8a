/**
 * `Array.prototype.sort` with a comparator `(a, b) => key(a) - key(b)`.
 * The sort of the JavaScript runtime is stable, so its result is the unique
 * permutation that is ordered by the key and keeps elements with equal keys
 * in their input order. `SortBy` computes it by stable insertion; a
 * descending sort (`b.total - a.total`) is `SortBy` with the key negated.
 */
module Sorting {

  ghost predicate SortedBy<T>(xs: seq<T>, key: T -> int) {
    forall i, j :: 0 <= i < j < |xs| ==> key(xs[i]) <= key(xs[j])
  }

  /** The subsequence of the elements whose key is `v`. */
  function WithKey<T>(xs: seq<T>, key: T -> int, v: int): seq<T> {
    if xs == [] then []
    else (if key(xs[0]) == v then [xs[0]] else []) + WithKey(xs[1..], key, v)
  }

  /** Sum of `f` over the elements. */
  function SumOf<T>(xs: seq<T>, f: T -> int): int {
    if xs == [] then 0 else f(xs[0]) + SumOf(xs[1..], f)
  }

  /** Inserts `x` in front of the first element whose key is not below `key(x)`. */
  function Insert<T>(x: T, ys: seq<T>, key: T -> int): (r: seq<T>)
    ensures |r| == |ys| + 1
    ensures multiset(r) == multiset(ys) + multiset{x}
  {
    if ys == [] || key(x) <= key(ys[0]) then
      [x] + ys
    else
      assert ys == [ys[0]] + ys[1..];
      [ys[0]] + Insert(x, ys[1..], key)
  }

  lemma {:induction false} InsertSorted<T>(x: T, ys: seq<T>, key: T -> int)
    requires SortedBy(ys, key)
    ensures SortedBy(Insert(x, ys, key), key)
  {
    if ys != [] && key(x) > key(ys[0]) {
      var rest := Insert(x, ys[1..], key);
      assert Insert(x, ys, key) == [ys[0]] + rest;
      assert SortedBy(rest, key) by {
        InsertSorted(x, ys[1..], key);
      }
      forall k | 0 <= k < |rest|
        ensures key(ys[0]) <= key(rest[k])
      {
        var e := rest[k];
        assert e in multiset(ys[1..]) + multiset{x};
        if e != x {
          assert e in ys[1..];
        }
      }
      ConsSorted(ys[0], rest, key);
    }
  }

  /** An element no greater than any of a sorted sequence can go in front of it. */
  lemma ConsSorted<T>(h: T, rest: seq<T>, key: T -> int)
    requires SortedBy(rest, key)
    requires forall k :: 0 <= k < |rest| ==> key(h) <= key(rest[k])
    ensures SortedBy([h] + rest, key)
  {
    var r := [h] + rest;
    forall i, j | 0 <= i < j < |r|
      ensures key(r[i]) <= key(r[j])
    {
      assert r[j] == rest[j - 1];
      if i > 0 {
        assert r[i] == rest[i - 1];
      }
    }
  }

  /** Insertion puts `x` behind nothing of equal key, so every key's subsequence is kept. */
  lemma {:induction false} InsertWithKey<T>(x: T, ys: seq<T>, key: T -> int, v: int)
    ensures WithKey(Insert(x, ys, key), key, v) == (if key(x) == v then [x] else []) + WithKey(ys, key, v)
  {
    if ys == [] || key(x) <= key(ys[0]) {
      assert ([x] + ys)[1..] == ys;
    } else {
      var rest := Insert(x, ys[1..], key);
      assert Insert(x, ys, key) == [ys[0]] + rest;
      InsertWithKey(x, ys[1..], key, v);
      assert ([ys[0]] + rest)[1..] == rest;
      var mine := if key(x) == v then [x] else [];
      var head := if key(ys[0]) == v then [ys[0]] else [];
      assert WithKey([ys[0]] + rest, key, v) == head + (mine + WithKey(ys[1..], key, v));
      assert WithKey(ys, key, v) == head + WithKey(ys[1..], key, v);
      assert head == [] || mine == [];
    }
  }

  /**
   * Stable sort, ascending by `key`: the result is ordered, a permutation of
   * the input, and keeps the order of the elements of any one key.
   */
  function SortBy<T>(xs: seq<T>, key: T -> int): (r: seq<T>)
    ensures |r| == |xs|
    ensures SortedBy(r, key)
    ensures multiset(r) == multiset(xs)
    ensures forall v :: WithKey(r, key, v) == WithKey(xs, key, v)
  {
    if xs == [] then []
    else
      var rest := SortBy(xs[1..], key);
      assert xs == [xs[0]] + xs[1..];
      assert multiset(xs) == multiset{xs[0]} + multiset(xs[1..]);
      InsertSorted(xs[0], rest, key);
      assert forall v :: WithKey(Insert(xs[0], rest, key), key, v) == WithKey(xs, key, v) by {
        forall v ensures WithKey(Insert(xs[0], rest, key), key, v) == WithKey(xs, key, v) {
          InsertWithKey(xs[0], rest, key, v);
        }
      }
      Insert(xs[0], rest, key)
  }

  /** Sorting neither adds nor drops an element. */
  lemma SortByMembers<T>(xs: seq<T>, key: T -> int)
    ensures forall x :: x in SortBy(xs, key) <==> x in xs
  {
    var r := SortBy(xs, key);
    forall x ensures x in r <==> x in xs {
      assert x in r <==> x in multiset(r);
      assert x in xs <==> x in multiset(xs);
    }
  }

  /** Sorting does not change a sum over the elements. */
  lemma {:induction false} SortBySum<T>(xs: seq<T>, key: T -> int, f: T -> int)
    ensures SumOf(SortBy(xs, key), f) == SumOf(xs, f)
  {
    if xs != [] {
      SortBySum(xs[1..], key, f);
      InsertSum(xs[0], SortBy(xs[1..], key), key, f);
    }
  }

  lemma {:induction false} InsertSum<T>(x: T, ys: seq<T>, key: T -> int, f: T -> int)
    ensures SumOf(Insert(x, ys, key), f) == f(x) + SumOf(ys, f)
  {
    if ys == [] || key(x) <= key(ys[0]) {
      assert ([x] + ys)[1..] == ys;
    } else {
      InsertSum(x, ys[1..], key, f);
      var rest := Insert(x, ys[1..], key);
      assert ([ys[0]] + rest)[1..] == rest;
    }
  }

  lemma {:induction false} WithKeyHas<T>(xs: seq<T>, key: T -> int, j: nat)
    requires j < |xs|
    ensures |WithKey(xs, key, key(xs[j]))| >= 1
  {
    if j > 0 {
      WithKeyHas(xs[1..], key, j - 1);
    }
  }

  /** If no element has key `v`, none is selected. */
  lemma {:induction false} WithKeyNone<T>(xs: seq<T>, key: T -> int, v: int)
    requires forall i :: 0 <= i < |xs| ==> key(xs[i]) != v
    ensures WithKey(xs, key, v) == []
  {
    if xs != [] {
      WithKeyNone(xs[1..], key, v);
    }
  }

  /** Nothing selected means no element has that key. */
  lemma {:induction false} WithKeyEmpty<T>(xs: seq<T>, key: T -> int, v: int)
    requires WithKey(xs, key, v) == []
    ensures forall i :: 0 <= i < |xs| ==> key(xs[i]) != v
  {
    if xs != [] {
      WithKeyEmpty(xs[1..], key, v);
      assert forall i :: 1 <= i < |xs| ==> xs[i] == xs[1..][i - 1];
    }
  }

  /** If no two elements share a key, every key value selects at most one element. */
  lemma {:induction false} DistinctKeysWithKey<T>(xs: seq<T>, key: T -> int, v: int)
    requires forall i, j :: 0 <= i < j < |xs| ==> key(xs[i]) != key(xs[j])
    ensures |WithKey(xs, key, v)| <= 1
  {
    if xs != [] {
      if key(xs[0]) == v {
        WithKeyNone(xs[1..], key, v);
      } else {
        DistinctKeysWithKey(xs[1..], key, v);
      }
    }
  }

  /** If a key selects at most one element, no other element shares the key of `xs[i]`. */
  lemma {:induction false} WithKeyUnique<T>(xs: seq<T>, key: T -> int, i: nat)
    requires i < |xs| && |WithKey(xs, key, key(xs[i]))| <= 1
    ensures forall j :: 0 <= j < |xs| && j != i ==> key(xs[j]) != key(xs[i])
  {
    var v := key(xs[i]);
    if i == 0 {
      WithKeyEmpty(xs[1..], key, v);
      assert forall j :: 1 <= j < |xs| ==> xs[j] == xs[1..][j - 1];
    } else {
      WithKeyHas(xs[1..], key, i - 1);
      assert key(xs[0]) != v;
      WithKeyUnique(xs[1..], key, i - 1);
      assert forall j :: 1 <= j < |xs| ==> xs[j] == xs[1..][j - 1];
    }
  }

  /**
   * Sorting a sequence whose keys are pairwise distinct gives a strictly
   * increasing sequence of keys.
   */
  lemma SortByStrict<T>(xs: seq<T>, key: T -> int)
    requires forall i, j :: 0 <= i < j < |xs| ==> key(xs[i]) != key(xs[j])
    ensures forall i, j :: 0 <= i < j < |SortBy(xs, key)| ==> key(SortBy(xs, key)[i]) < key(SortBy(xs, key)[j])
  {
    var r := SortBy(xs, key);
    forall i, j | 0 <= i < j < |r|
      ensures key(r[i]) < key(r[j])
    {
      DistinctKeysWithKey(xs, key, key(r[i]));
      WithKeyUnique(r, key, i);
    }
  }

  /** `f` tells the elements of `xs` apart: no two positions share its value. */
  ghost predicate DistinctBy<T, K>(xs: seq<T>, f: T -> K) {
    forall i, j :: 0 <= i < j < |xs| ==> f(xs[i]) != f(xs[j])
  }

  lemma {:induction false} InsertDistinct<T, K>(x: T, ys: seq<T>, key: T -> int, f: T -> K)
    requires DistinctBy(ys, f)
    requires forall y :: y in ys ==> f(y) != f(x)
    ensures DistinctBy(Insert(x, ys, key), f)
  {
    if ys != [] && key(x) > key(ys[0]) {
      var rest := Insert(x, ys[1..], key);
      assert Insert(x, ys, key) == [ys[0]] + rest;
      assert DistinctBy(rest, f) by {
        assert forall y :: y in ys[1..] ==> y in ys;
        assert DistinctBy(ys[1..], f) by {
          assert forall j :: 0 <= j < |ys| - 1 ==> ys[1..][j] == ys[j + 1];
        }
        InsertDistinct(x, ys[1..], key, f);
      }
      forall k | 0 <= k < |rest|
        ensures f(rest[k]) != f(ys[0])
      {
        var e := rest[k];
        assert e in multiset(ys[1..]) + multiset{x};
        if e != x {
          var m :| 0 <= m < |ys[1..]| && ys[1..][m] == e;
          assert ys[m + 1] == e;
        }
      }
      ConsDistinct(ys[0], rest, f);
    }
  }

  /** An element apart from all of a sequence whose elements are apart can go in front of it. */
  lemma ConsDistinct<T, K>(h: T, rest: seq<T>, f: T -> K)
    requires DistinctBy(rest, f)
    requires forall k :: 0 <= k < |rest| ==> f(rest[k]) != f(h)
    ensures DistinctBy([h] + rest, f)
  {
    var r := [h] + rest;
    forall i, j | 0 <= i < j < |r|
      ensures f(r[i]) != f(r[j])
    {
      assert r[j] == rest[j - 1];
      if i > 0 {
        assert r[i] == rest[i - 1];
      }
    }
  }

  /** Sorting keeps apart what was apart. */
  lemma {:induction false} SortByDistinct<T, K>(xs: seq<T>, key: T -> int, f: T -> K)
    requires DistinctBy(xs, f)
    ensures DistinctBy(SortBy(xs, key), f)
  {
    if xs != [] {
      var rest := SortBy(xs[1..], key);
      SortByDistinct(xs[1..], key, f);
      assert forall e :: e in rest ==> e in multiset(xs[1..]);
      assert forall j :: 1 <= j < |xs| ==> xs[j] == xs[1..][j - 1];
      assert forall e :: e in xs[1..] ==> f(e) != f(xs[0]);
      InsertDistinct(xs[0], rest, key, f);
    }
  }
}
