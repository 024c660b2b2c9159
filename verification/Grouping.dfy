/**
 The insertion-ordered dictionary of lists that `grouped.setdefault(key, []).append(item)` builds:
 the keys in the order in which they were first seen, and the items of each key in input order.
*/
module Grouping {
  import opened Wrappers

  /** The keys of `xs` in order of first appearance. */
  function Keys<K(==), V>(xs: seq<V>, key: V -> K): (ks: seq<K>)
    ensures forall x | x in xs :: key(x) in ks
  {
    if xs == [] then []
    else
      var ks := Keys(xs[..|xs| - 1], key);
      var k := key(xs[|xs| - 1]);
      assert xs == xs[..|xs| - 1] + [xs[|xs| - 1]];
      if k in ks then ks else ks + [k]
  }

  /** The items filed under `k`, in input order. */
  function Bucket<K(==), V>(xs: seq<V>, key: V -> K, k: K): (b: seq<V>)
    ensures forall x | x in b :: x in xs && key(x) == k
    ensures forall x | x in xs && key(x) == k :: x in b
    ensures |b| <= |xs|
  {
    if xs == [] then []
    else
      var b := Bucket(xs[..|xs| - 1], key, k);
      var x := xs[|xs| - 1];
      assert xs == xs[..|xs| - 1] + [x];
      if key(x) == k then b + [x] else b
  }

  lemma KeysStep<K, V>(xs: seq<V>, x: V, key: V -> K)
    ensures Keys(xs + [x], key) == if key(x) in Keys(xs, key) then Keys(xs, key) else Keys(xs, key) + [key(x)]
  {
    assert (xs + [x])[..|xs|] == xs;
  }

  lemma BucketStep<K, V>(xs: seq<V>, x: V, key: V -> K, k: K)
    ensures Bucket(xs + [x], key, k) == Bucket(xs, key, k) + if key(x) == k then [x] else []
  {
    assert (xs + [x])[..|xs|] == xs;
  }

  ghost predicate Distinct<K>(ks: seq<K>) {
    forall i, j :: 0 <= i < j < |ks| ==> ks[i] != ks[j]
  }

  ghost function Members<T>(xs: seq<T>): set<T> {
    set x | x in xs
  }

  /** A list has at most as many members as places, and as many exactly when nothing is listed twice. */
  lemma {:induction false} MembersSize<T>(xs: seq<T>)
    ensures |Members(xs)| <= |xs|
    ensures |Members(xs)| == |xs| <==> Distinct(xs)
  {
    if xs != [] {
      var n := |xs| - 1;
      MembersSize(xs[..n]);
      assert xs == xs[..n] + [xs[n]];
      assert Members(xs) == Members(xs[..n]) + {xs[n]};
      if xs[n] in xs[..n] {
        var i :| 0 <= i < n && xs[..n][i] == xs[n];
        assert xs[i] == xs[n];
      }
    }
  }

  /** Each key is listed once, each has an item, and nothing else is listed. */
  lemma {:induction false} KeysAreDistinct<K, V>(xs: seq<V>, key: V -> K)
    ensures Distinct(Keys(xs, key))
    ensures forall k | k in Keys(xs, key) :: Bucket(xs, key, k) != []
    ensures forall k | k !in Keys(xs, key) :: Bucket(xs, key, k) == []
  {
    if xs != [] {
      KeysAreDistinct(xs[..|xs| - 1], key);
    }
  }

  lemma {:induction false} BucketOfSum<K, V>(xs: seq<V>, ys: seq<V>, key: V -> K, k: K)
    ensures Bucket(xs + ys, key, k) == Bucket(xs, key, k) + Bucket(ys, key, k)
  {
    if ys == [] {
      assert xs + ys == xs;
    } else {
      var n := |ys| - 1;
      assert (xs + ys)[..|xs + ys| - 1] == xs + ys[..n];
      BucketOfSum(xs, ys[..n], key, k);
    }
  }

  /** A list whose items all carry one key is its own bucket, and every other bucket is empty. */
  lemma {:induction false} BucketOfUniform<K, V>(xs: seq<V>, key: V -> K, k: K)
    requires forall x | x in xs :: key(x) == k
    ensures Bucket(xs, key, k) == xs
    ensures forall j | j != k :: Bucket(xs, key, j) == []
  {
    if xs != [] {
      var n := |xs| - 1;
      BucketOfUniform(xs[..n], key, k);
      assert xs == xs[..n] + [xs[n]];
      assert xs[n] in xs;
    }
  }

  /** No item is lost or duplicated by filing: each keeps its multiplicity in its own bucket. */
  lemma {:induction false} BucketCounts<K, V>(xs: seq<V>, key: V -> K, x: V)
    ensures multiset(Bucket(xs, key, key(x)))[x] == multiset(xs)[x]
  {
    if xs != [] {
      var n := |xs| - 1;
      BucketCounts(xs[..n], key, x);
      assert xs == xs[..n] + [xs[n]];
    }
  }

  /** An item's position in its bucket is the number of same-key items before it. */
  lemma {:induction false} BucketPosition<K, V>(xs: seq<V>, key: V -> K, j: nat)
    requires j < |xs|
    ensures var rank := |Bucket(xs[..j], key, key(xs[j]))|;
            rank < |Bucket(xs, key, key(xs[j]))| && Bucket(xs, key, key(xs[j]))[rank] == xs[j]
  {
    var n := |xs| - 1;
    if j < n {
      BucketPosition(xs[..n], key, j);
      assert xs[..n][..j] == xs[..j];
    }
  }

  /** Appending items of one key opens at most one new group, at the end. */
  lemma {:induction false} KeysOfUniformSuffix<K, V>(xs: seq<V>, ys: seq<V>, key: V -> K, k: K)
    requires ys != [] && forall y | y in ys :: key(y) == k
    ensures Keys(xs + ys, key) == if k in Keys(xs, key) then Keys(xs, key) else Keys(xs, key) + [k]
  {
    var n := |ys| - 1;
    assert (xs + ys)[..|xs + ys| - 1] == xs + ys[..n];
    assert ys[n] in ys;
    if n == 0 {
      assert xs + ys[..n] == xs;
    } else {
      KeysOfUniformSuffix(xs, ys[..n], key, k);
    }
  }

  /** Two keys that pick out the same items have the same bucket. */
  lemma {:induction false} BucketsAgree<J, K, V>(xs: seq<V>, f: V -> J, j: J, g: V -> K, k: K)
    requires forall x | x in xs :: f(x) == j <==> g(x) == k
    ensures Bucket(xs, f, j) == Bucket(xs, g, k)
  {
    if xs != [] {
      var n := |xs| - 1;
      assert xs == xs[..n] + [xs[n]];
      assert xs[n] in xs;
      BucketsAgree(xs[..n], f, j, g, k);
    }
  }

  function Map<V, W>(f: V -> W, xs: seq<V>): (r: seq<W>)
    ensures |r| == |xs| && forall i | 0 <= i < |r| :: r[i] == f(xs[i])
  {
    seq(|xs|, i requires 0 <= i < |xs| => f(xs[i]))
  }

  lemma MapStep<V, W>(f: V -> W, xs: seq<V>, x: V)
    ensures Map(f, xs + [x]) == Map(f, xs) + [f(x)]
  {}

  /** Transforming items without changing their keys commutes with filing them. */
  lemma {:induction false} GroupingOfImages<K, V, W>(xs: seq<V>, f: V -> W, before: V -> K, after: W -> K, k: K)
    requires forall x | x in xs :: after(f(x)) == before(x)
    ensures Keys(Map(f, xs), after) == Keys(xs, before)
    ensures Bucket(Map(f, xs), after, k) == Map(f, Bucket(xs, before, k))
  {
    if xs != [] {
      var n := |xs| - 1;
      assert xs == xs[..n] + [xs[n]];
      assert Map(f, xs)[..n] == Map(f, xs[..n]);
      assert xs[n] in xs;
      GroupingOfImages(xs[..n], f, before, after, k);
    }
  }

  ghost predicate Grouped<K, V>(xs: seq<V>, key: V -> K, order: seq<K>, groups: map<K, seq<V>>) {
    && order == Keys(xs, key)
    && (forall k | k in groups :: k in order)
    && (forall k | k in order :: k in groups && groups[k] == Bucket(xs, key, k))
  }

  lemma GroupedStep<K, V>(xs: seq<V>, x: V, key: V -> K, order: seq<K>, groups: map<K, seq<V>>)
    requires Grouped(xs, key, order, groups)
    ensures var k := key(x);
            if k in groups then Grouped(xs + [x], key, order, groups[k := groups[k] + [x]])
            else Grouped(xs + [x], key, order + [k], groups[k := [x]])
  {
    var k := key(x);
    var order' := if k in groups then order else order + [k];
    var groups' := groups[k := if k in groups then groups[k] + [x] else [x]];
    KeysStep(xs, x, key);
    forall j | j in order'
      ensures j in groups' && groups'[j] == Bucket(xs + [x], key, j)
    {
      BucketStep(xs, x, key, j);
      KeysAreDistinct(xs, key);
      assert k !in groups ==> Bucket(xs, key, k) == [];
      assert j != k ==> j in order && groups[j] == Bucket(xs, key, j);
    }
  }

  /** The loop behind every `setdefault(...).append(...)`. */
  method GroupBy<K(==), V>(xs: seq<V>, key: V -> K) returns (order: seq<K>, groups: map<K, seq<V>>)
    ensures order == Keys(xs, key)
    ensures groups.Keys == set k | k in order
    ensures forall k | k in order :: groups[k] == Bucket(xs, key, k)
  {
    order, groups := [], map[];
    for i := 0 to |xs|
      invariant Grouped(xs[..i], key, order, groups)
    {
      GroupedStep(xs[..i], xs[i], key, order, groups);
      assert xs[..i + 1] == xs[..i] + [xs[i]];
      var k := key(xs[i]);
      if k in groups {
        groups := groups[k := groups[k] + [xs[i]]];
      } else {
        order := order + [k];
        groups := groups[k := [xs[i]]];
      }
    }
    assert xs[..|xs|] == xs;
  }

  /** `enumerate`: each item is appended, transformed together with its position. */
  method AppendEnumerated<V, W>(start: seq<W>, items: seq<V>, f: (V, nat) -> W) returns (r: seq<W>)
    ensures r == start + seq(|items|, i requires 0 <= i < |items| => f(items[i], i))
  {
    r := start;
    ghost var part := seq(|items|, i requires 0 <= i < |items| => f(items[i], i));
    for i := 0 to |items|
      invariant r == start + part[..i]
    {
      r := r + [f(items[i], i)];
      assert part[..i + 1] == part[..i] + [part[i]];
    }
    assert part[..|items|] == part;
  }

  /** A loop that transforms each item and gives up at the first one it cannot transform. */
  method MapOrFail<V(==), W>(xs: seq<V>, f: V -> Option<W>) returns (r: Option<seq<W>>)
    ensures r.None? <==> exists x | x in xs :: f(x).None?
    ensures r.Some? ==> |r.value| == |xs| && forall i | 0 <= i < |xs| :: f(xs[i]) == Some(r.value[i])
  {
    var ys: seq<W> := [];
    for i := 0 to |xs|
      invariant |ys| == i
      invariant forall j | 0 <= j < i :: f(xs[j]) == Some(ys[j])
    {
      var y := f(xs[i]);
      if y.None? {
        assert xs[i] in xs;
        return None;
      }
      ys := ys + [y.value];
    }
    r := Some(ys);
  }

  /** The items whose name is neither in `seen` nor the name of an earlier item. */
  function FirstByName<V>(seen: set<string>, xs: seq<V>, name: V -> string): (r: seq<V>)
    ensures forall x | x in r :: x in xs && name(x) !in seen
  {
    if xs == [] then []
    else
      var r := FirstByName(seen, xs[..|xs| - 1], name);
      var x := xs[|xs| - 1];
      assert xs == xs[..|xs| - 1] + [x];
      if name(x) in seen || Named(r, name(x), name) then r else r + [x]
  }

  predicate Named<V>(xs: seq<V>, s: string, name: V -> string) {
    exists i | 0 <= i < |xs| :: name(xs[i]) == s
  }

  /** `xs[i]` is the first item of its name. */
  ghost predicate FirstAt<V>(xs: seq<V>, i: nat, name: V -> string) {
    i < |xs| && forall j | 0 <= j < i :: name(xs[j]) != name(xs[i])
  }

  /** No name is kept twice and none outside `seen` is lost. */
  lemma {:induction false} FirstByNameKeepsNames<V>(seen: set<string>, xs: seq<V>, name: V -> string)
    ensures var r := FirstByName(seen, xs, name);
            && (forall i, j | 0 <= i < j < |r| :: name(r[i]) != name(r[j]))
            && (forall i | 0 <= i < |xs| && name(xs[i]) !in seen :: Named(r, name(xs[i]), name))
  {
    if xs != [] {
      var n := |xs| - 1;
      FirstByNameKeepsNames(seen, xs[..n], name);
      var before, r := FirstByName(seen, xs[..n], name), FirstByName(seen, xs, name);
      assert forall k | 0 <= k < |before| :: r[k] == before[k];
      forall i | 0 <= i < |xs| && name(xs[i]) !in seen
        ensures Named(r, name(xs[i]), name)
      {
        if i < n {
          assert xs[..n][i] == xs[i];
        }
        if Named(before, name(xs[i]), name) {
          var k :| 0 <= k < |before| && name(before[k]) == name(xs[i]);
          assert name(r[k]) == name(xs[i]);
        } else {
          assert name(r[|before|]) == name(xs[n]);
        }
      }
    }
  }

  /** What is kept is the first bearer of its name. */
  lemma {:induction false} FirstByNameIsFirst<V>(seen: set<string>, xs: seq<V>, name: V -> string, k: nat)
    returns (i: nat)
    requires k < |FirstByName(seen, xs, name)|
    ensures FirstAt(xs, i, name) && xs[i] == FirstByName(seen, xs, name)[k]
  {
    var n := |xs| - 1;
    var before := FirstByName(seen, xs[..n], name);
    if k < |before| {
      i := FirstByNameIsFirst(seen, xs[..n], name, k);
      assert forall j | 0 <= j <= i :: xs[..n][j] == xs[j];
    } else {
      i := n;
      FirstByNameKeepsNames(seen, xs[..n], name);
      assert forall j | 0 <= j < n :: xs[..n][j] == xs[j];
    }
  }
}
