/**
 * Grouping into a keyed collection that remembers insertion order, as a
 * JavaScript `Map` (and an object whose keys are not integer-like) does:
 * `order` lists each key once, in the order in which it was first added, and
 * `members` holds, per key, the elements pushed under it in arrival order.
 */
module Grouping {

  datatype Groups<K, T> = Groups(order: seq<K>, members: map<K, seq<T>>)

  /** Every key is listed once, and the listed keys are exactly the map's keys. */
  ghost predicate Valid<K, T>(g: Groups<K, T>) {
    && (forall i, j :: 0 <= i < j < |g.order| ==> g.order[i] != g.order[j])
    && g.members.Keys == set k | k in g.order
  }

  /** The elements grouped under `k`, or none. */
  function Lookup<K(==), T>(g: Groups<K, T>, k: K): seq<T> {
    if k in g.members then g.members[k] else []
  }

  /** `if (!groups[k]) groups[k] = []; groups[k].push(x)`. */
  function Add<K(==), T>(g: Groups<K, T>, k: K, x: T): Groups<K, T> {
    if k in g.members then Groups(g.order, g.members[k := g.members[k] + [x]])
    else Groups(g.order + [k], g.members[k := [x]])
  }

  /** Adds the elements of `xs`, first to last, each under its key. */
  function GroupBy<K(==), T>(g: Groups<K, T>, xs: seq<T>, keyOf: T -> K): Groups<K, T> {
    if xs == [] then g
    else
      var n := |xs| - 1;
      Add(GroupBy(g, xs[..n], keyOf), keyOf(xs[n]), xs[n])
  }

  /** The subsequence of the elements whose key is `k`. */
  function Select<K(==), T>(xs: seq<T>, keyOf: T -> K, k: K): seq<T> {
    if xs == [] then []
    else
      var n := |xs| - 1;
      Select(xs[..n], keyOf, k) + (if keyOf(xs[n]) == k then [xs[n]] else [])
  }

  /** Number of elements satisfying `p`. */
  function CountIf<T>(xs: seq<T>, p: T -> bool): nat {
    if xs == [] then 0
    else
      var n := |xs| - 1;
      CountIf(xs[..n], p) + (if p(xs[n]) then 1 else 0)
  }

  function Always<T>(x: T): bool {
    true
  }

  /** Sum, over the listed keys, of the number of members satisfying `p`. */
  function SumCount<K(==), T>(order: seq<K>, members: map<K, seq<T>>, p: T -> bool): nat
    requires forall k :: k in order ==> k in members
  {
    if order == [] then 0
    else
      var n := |order| - 1;
      SumCount(order[..n], members, p) + CountIf(members[order[n]], p)
  }

  lemma {:induction false} CountIfAppend<T>(xs: seq<T>, ys: seq<T>, p: T -> bool)
    ensures CountIf(xs + ys, p) == CountIf(xs, p) + CountIf(ys, p)
  {
    if ys == [] {
      assert xs + ys == xs;
    } else {
      var n := |ys| - 1;
      assert (xs + ys)[..|xs + ys| - 1] == xs + ys[..n];
      CountIfAppend(xs, ys[..n], p);
    }
  }

  /** Counting every element gives the length. */
  lemma {:induction false} CountAlways<T>(xs: seq<T>)
    ensures CountIf(xs, Always) == |xs|
  {
    if xs != [] {
      CountAlways(xs[..|xs| - 1]);
    }
  }

  lemma {:induction false} SumCountIgnores<K, T>(order: seq<K>, members: map<K, seq<T>>, p: T -> bool, k: K, v: seq<T>)
    requires forall k' :: k' in order ==> k' in members
    requires k !in order
    ensures SumCount(order, members[k := v], p) == SumCount(order, members, p)
  {
    if order != [] {
      SumCountIgnores(order[..|order| - 1], members, p, k, v);
    }
  }

  lemma {:induction false} SumCountUpdate<K, T>(order: seq<K>, members: map<K, seq<T>>, p: T -> bool, k: K, v: seq<T>)
    requires forall k' :: k' in order ==> k' in members
    requires forall i, j :: 0 <= i < j < |order| ==> order[i] != order[j]
    requires k in order
    ensures SumCount(order, members[k := v], p) + CountIf(members[k], p)
         == SumCount(order, members, p) + CountIf(v, p)
  {
    var n := |order| - 1;
    if order[n] == k {
      SumCountIgnores(order[..n], members, p, k, v);
    } else {
      assert k in order[..n] by {
        var i :| 0 <= i < |order| && order[i] == k;
        assert order[..n][i] == k;
      }
      SumCountUpdate(order[..n], members, p, k, v);
    }
  }

  lemma {:induction false} AddValid<K, T>(g: Groups<K, T>, k: K, x: T)
    requires Valid(g)
    ensures Valid(Add(g, k, x))
    ensures g.order <= Add(g, k, x).order
    ensures forall k' :: Lookup(Add(g, k, x), k') == Lookup(g, k') + (if k' == k then [x] else [])
  {
  }

  /**
   * Grouping keeps the collection well formed, only appends keys, and puts
   * under each key exactly the elements of that key, in input order.
   */
  lemma {:induction false} GroupByMembers<K, T>(g: Groups<K, T>, xs: seq<T>, keyOf: T -> K)
    requires Valid(g)
    ensures Valid(GroupBy(g, xs, keyOf))
    ensures g.order <= GroupBy(g, xs, keyOf).order
    ensures forall k :: Lookup(GroupBy(g, xs, keyOf), k) == Lookup(g, k) + Select(xs, keyOf, k)
  {
    if xs != [] {
      var n := |xs| - 1;
      GroupByMembers(g, xs[..n], keyOf);
      AddValid(GroupBy(g, xs[..n], keyOf), keyOf(xs[n]), xs[n]);
    }
  }

  /** A key is listed after grouping iff it was listed before or some element has it. */
  lemma {:induction false} GroupByKeys<K, T>(g: Groups<K, T>, xs: seq<T>, keyOf: T -> K, k: K)
    requires Valid(g)
    ensures k in GroupBy(g, xs, keyOf).order <==> k in g.order || exists i :: 0 <= i < |xs| && keyOf(xs[i]) == k
  {
    if xs != [] {
      var n := |xs| - 1;
      GroupByKeys(g, xs[..n], keyOf, k);
      GroupByMembers(g, xs[..n], keyOf);
      if exists i :: 0 <= i < |xs| && keyOf(xs[i]) == k {
        var i :| 0 <= i < |xs| && keyOf(xs[i]) == k;
        if i < n {
          assert keyOf(xs[..n][i]) == k;
        }
      }
      if exists i :: 0 <= i < n && keyOf(xs[..n][i]) == k {
        var i :| 0 <= i < n && keyOf(xs[..n][i]) == k;
        assert keyOf(xs[i]) == k;
      }
    }
  }

  /**
   * Conservation: summed over the groups, the members satisfying `p` are the
   * elements satisfying `p`, each counted once.
   */
  lemma {:induction false} GroupBySum<K, T>(g: Groups<K, T>, xs: seq<T>, keyOf: T -> K, p: T -> bool)
    requires Valid(g)
    ensures Valid(GroupBy(g, xs, keyOf))
    ensures SumCount(GroupBy(g, xs, keyOf).order, GroupBy(g, xs, keyOf).members, p)
         == SumCount(g.order, g.members, p) + CountIf(xs, p)
  {
    GroupByMembers(g, xs, keyOf);
    if xs != [] {
      var n := |xs| - 1;
      var h := GroupBy(g, xs[..n], keyOf);
      GroupBySum(g, xs[..n], keyOf, p);
      var k, x := keyOf(xs[n]), xs[n];
      if k in h.members {
        SumCountUpdate(h.order, h.members, p, k, h.members[k] + [x]);
        CountIfAppend(h.members[k], [x], p);
      } else {
        SumCountIgnores(h.order, h.members, p, k, [x]);
        assert (h.order + [k])[..|h.order|] == h.order;
        assert CountIf([x], p) == (if p(x) then 1 else 0) by {
          assert [x][..0] == [];
        }
      }
    }
  }

  /** No group is ever empty: a key is created together with its first element. */
  lemma {:induction false} GroupByNonEmpty<K, T>(g: Groups<K, T>, xs: seq<T>, keyOf: T -> K)
    requires forall k :: k in g.members ==> g.members[k] != []
    ensures forall k :: k in GroupBy(g, xs, keyOf).members ==> GroupBy(g, xs, keyOf).members[k] != []
  {
    if xs != [] {
      GroupByNonEmpty(g, xs[..|xs| - 1], keyOf);
    }
  }

  /** Every element of `Select(xs, keyOf, k)` comes from `xs` and has key `k`. */
  lemma {:induction false} SelectHasKey<K, T>(xs: seq<T>, keyOf: T -> K, k: K)
    ensures forall x :: x in Select(xs, keyOf, k) ==> x in xs && keyOf(x) == k
  {
    if xs != [] {
      var n := |xs| - 1;
      var pre := Select(xs[..n], keyOf, k);
      var last := if keyOf(xs[n]) == k then [xs[n]] else [];
      assert Select(xs, keyOf, k) == pre + last;
      SelectHasKey(xs[..n], keyOf, k);
      forall x | x in pre + last
        ensures x in xs && keyOf(x) == k
      {
        if x in pre {
          var m :| 0 <= m < n && xs[..n][m] == x;
          assert xs[m] == x;
        }
      }
    }
  }

  /** Sum, over the keys listed, of the number of elements with that key satisfying `p`. */
  function SelectCount<K(==), T>(keys: seq<K>, xs: seq<T>, keyOf: T -> K, p: T -> bool): nat {
    if keys == [] then 0
    else CountIf(Select(xs, keyOf, keys[0]), p) + SelectCount(keys[1..], xs, keyOf, p)
  }

  lemma {:induction false} SelectCountStep<K, T>(keys: seq<K>, xs: seq<T>, x: T, keyOf: T -> K, p: T -> bool)
    requires forall i, j :: 0 <= i < j < |keys| ==> keys[i] != keys[j]
    ensures SelectCount(keys, xs + [x], keyOf, p)
         == SelectCount(keys, xs, keyOf, p) + (if keyOf(x) in keys && p(x) then 1 else 0)
  {
    if keys != [] {
      var k := keys[0];
      assert (xs + [x])[..|xs|] == xs;
      var extra := if keyOf(x) == k then [x] else [];
      assert Select(xs + [x], keyOf, k) == Select(xs, keyOf, k) + extra;
      CountIfAppend(Select(xs, keyOf, k), extra, p);
      assert CountIf([x], p) == (if p(x) then 1 else 0) by {
        assert [x][..0] == [];
      }
      assert forall i, j :: 0 <= i < j < |keys[1..]| ==> keys[1..][i] != keys[1..][j] by {
        forall i, j | 0 <= i < j < |keys[1..]| ensures keys[1..][i] != keys[1..][j] {
          assert keys[1..][i] == keys[i + 1] && keys[1..][j] == keys[j + 1];
        }
      }
      SelectCountStep(keys[1..], xs, x, keyOf, p);
      assert keys == [k] + keys[1..];
      assert k !in keys[1..] by {
        forall i | 0 <= i < |keys[1..]| ensures keys[1..][i] != k {
          assert keys[1..][i] == keys[i + 1];
        }
      }
    }
  }

  /**
   * Conservation: when the keys listed are distinct and cover every element's
   * key, the per-key counts add up to the count over all elements.
   */
  lemma {:induction false} SelectCountAll<K, T>(keys: seq<K>, xs: seq<T>, keyOf: T -> K, p: T -> bool)
    requires forall i, j :: 0 <= i < j < |keys| ==> keys[i] != keys[j]
    requires forall i :: 0 <= i < |xs| ==> keyOf(xs[i]) in keys
    ensures SelectCount(keys, xs, keyOf, p) == CountIf(xs, p)
  {
    if xs == [] {
      SelectCountNone(keys, xs, keyOf, p);
    } else {
      var n := |xs| - 1;
      assert forall i :: 0 <= i < n ==> xs[..n][i] == xs[i];
      SelectCountAll(keys, xs[..n], keyOf, p);
      assert xs == xs[..n] + [xs[n]];
      SelectCountStep(keys, xs[..n], xs[n], keyOf, p);
    }
  }

  lemma {:induction false} SelectCountNone<K, T>(keys: seq<K>, xs: seq<T>, keyOf: T -> K, p: T -> bool)
    requires xs == []
    ensures SelectCount(keys, xs, keyOf, p) == 0
  {
    if keys != [] {
      SelectCountNone(keys[1..], xs, keyOf, p);
    }
  }

  /** `xs.filter(p)`: the elements satisfying `p`, in input order. */
  function Keep<T>(xs: seq<T>, p: T -> bool): (r: seq<T>)
    ensures |r| == CountIf(xs, p)
    ensures forall i :: 0 <= i < |r| ==> p(r[i])
  {
    if xs == [] then []
    else
      var n := |xs| - 1;
      Keep(xs[..n], p) + (if p(xs[n]) then [xs[n]] else [])
  }

  /** The filter keeps exactly the elements satisfying `p`. */
  lemma {:induction false} KeepMembers<T>(xs: seq<T>, p: T -> bool)
    ensures forall x :: x in Keep(xs, p) <==> x in xs && p(x)
  {
    if xs != [] {
      var n := |xs| - 1;
      assert xs == xs[..n] + [xs[n]];
      KeepMembers(xs[..n], p);
    }
  }

  /** No element satisfies `p`, so none is counted. */
  lemma {:induction false} CountIfNone<T>(xs: seq<T>, p: T -> bool)
    requires forall i :: 0 <= i < |xs| ==> !p(xs[i])
    ensures CountIf(xs, p) == 0
  {
    if xs != [] {
      var n := |xs| - 1;
      assert forall i :: 0 <= i < n ==> xs[..n][i] == xs[i];
      CountIfNone(xs[..n], p);
    }
  }
}
