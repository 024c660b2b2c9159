/** A stable sort, as Python's `sorted` promises, for any total preorder `before`. */
module StableSort {

  ghost predicate TotalPreorder<T(!new)>(before: (T, T) -> bool) {
    && (forall x, y :: before(x, y) || before(y, x))
    && (forall x, y, z :: before(x, y) && before(y, z) ==> before(x, z))
  }

  ghost predicate Ordered<T>(xs: seq<T>, before: (T, T) -> bool) {
    forall i, j :: 0 <= i < j < |xs| ==> before(xs[i], xs[j])
  }

  function Insert<T>(x: T, xs: seq<T>, before: (T, T) -> bool): (r: seq<T>)
    ensures multiset(r) == multiset{x} + multiset(xs)
    ensures |r| == |xs| + 1
  {
    if xs == [] || before(x, xs[0]) then [x] + xs
    else
      assert xs == [xs[0]] + xs[1..];
      [xs[0]] + Insert(x, xs[1..], before)
  }

  function Sorted<T>(xs: seq<T>, before: (T, T) -> bool): (r: seq<T>)
    ensures multiset(r) == multiset(xs)
    ensures |r| == |xs|
  {
    if xs == [] then []
    else
      assert xs == [xs[0]] + xs[1..];
      Insert(xs[0], Sorted(xs[1..], before), before)
  }

  lemma {:induction false} InsertKeepsOrder<T(!new)>(x: T, xs: seq<T>, before: (T, T) -> bool)
    requires TotalPreorder(before) && Ordered(xs, before)
    ensures Ordered(Insert(x, xs, before), before)
  {
    if xs != [] && !before(x, xs[0]) {
      var tail := Insert(x, xs[1..], before);
      InsertKeepsOrder(x, xs[1..], before);
      forall y | y in tail
        ensures before(xs[0], y)
      {
        assert y in multiset(tail);
        assert y == x || y in xs[1..];
      }
    }
  }

  /** The result is ordered. */
  lemma {:induction false} SortedIsOrdered<T(!new)>(xs: seq<T>, before: (T, T) -> bool)
    requires TotalPreorder(before)
    ensures Ordered(Sorted(xs, before), before)
  {
    if xs != [] {
      SortedIsOrdered(xs[1..], before);
      InsertKeepsOrder(xs[0], Sorted(xs[1..], before), before);
    }
  }

  /** Sorting leaves a list alone exactly when it was ordered already. */
  lemma {:induction false} SortedFixpointIffOrdered<T(!new)>(xs: seq<T>, before: (T, T) -> bool)
    requires TotalPreorder(before)
    ensures Sorted(xs, before) == xs <==> Ordered(xs, before)
  {
    SortedIsOrdered(xs, before);
    if Ordered(xs, before) && xs != [] {
      SortedFixpointIffOrdered(xs[1..], before);
      assert Sorted(xs[1..], before) == xs[1..];
    }
  }

  /** The elements equivalent to `x`, in the order in which they stand. */
  function Peers<T>(x: T, xs: seq<T>, before: (T, T) -> bool): seq<T> {
    if xs == [] then []
    else (if Peer(x, xs[0], before) then [xs[0]] else []) + Peers(x, xs[1..], before)
  }

  lemma {:induction false} InsertKeepsPeers<T(!new)>(x: T, y: T, ys: seq<T>, before: (T, T) -> bool)
    requires TotalPreorder(before)
    ensures Peers(x, Insert(y, ys, before), before) == Peers(x, [y] + ys, before)
  {
    if ys != [] && !before(y, ys[0]) {
      InsertKeepsPeers(x, y, ys[1..], before);
      assert ([y] + ys)[1..] == ys;
      assert ([y] + ys[1..])[1..] == ys[1..];
    }
  }

  /** Stability: equivalent elements keep their relative order. */
  lemma {:induction false} SortedIsStable<T(!new)>(x: T, xs: seq<T>, before: (T, T) -> bool)
    requires TotalPreorder(before)
    ensures Peers(x, Sorted(xs, before), before) == Peers(x, xs, before)
  {
    if xs != [] {
      SortedIsStable(x, xs[1..], before);
      InsertKeepsPeers(x, xs[0], Sorted(xs[1..], before), before);
      var s := [xs[0]] + Sorted(xs[1..], before);
      assert s[1..] == Sorted(xs[1..], before);
    }
  }

  predicate Peer<T>(x: T, y: T, before: (T, T) -> bool) {
    before(x, y) && before(y, x)
  }

  /** `xs[j]` is equivalent to `x`, and nothing after it is. */
  ghost predicate LastPeerAt<T>(x: T, xs: seq<T>, before: (T, T) -> bool, j: nat) {
    j < |xs| && Peer(x, xs[j], before) && forall k | j < k < |xs| :: !Peer(x, xs[k], before)
  }

  lemma {:induction false} LastPeerEndsPeers<T(!new)>(x: T, xs: seq<T>, before: (T, T) -> bool, j: nat)
    requires LastPeerAt(x, xs, before, j)
    ensures var peers := Peers(x, xs, before); peers != [] && peers[|peers| - 1] == xs[j]
  {
    if j > 0 {
      assert forall k | j - 1 < k < |xs[1..]| :: xs[1..][k] == xs[k + 1];
      LastPeerEndsPeers(x, xs[1..], before, j - 1);
    } else {
      assert forall k | 0 <= k < |xs[1..]| :: xs[1..][k] == xs[k + 1];
      NoPeers(x, xs[1..], before);
    }
  }

  lemma {:induction false} NoPeers<T(!new)>(x: T, xs: seq<T>, before: (T, T) -> bool)
    requires forall k | 0 <= k < |xs| :: !Peer(x, xs[k], before)
    ensures Peers(x, xs, before) == []
  {
    if xs != [] {
      assert forall k | 0 <= k < |xs[1..]| :: xs[1..][k] == xs[k + 1];
      NoPeers(x, xs[1..], before);
    }
  }

  lemma {:induction false} LastPeerExists<T(!new)>(x: T, xs: seq<T>, before: (T, T) -> bool) returns (j: nat)
    requires Peers(x, xs, before) != []
    ensures LastPeerAt(x, xs, before, j)
  {
    if Peers(x, xs[1..], before) != [] {
      var i := LastPeerExists(x, xs[1..], before);
      j := i + 1;
      assert xs[j] == xs[1..][i];
      assert forall k | j < k < |xs| :: xs[k] == xs[1..][k - 1];
    } else {
      j := 0;
      SomePeer(x, xs[1..], before);
    }
  }

  lemma {:induction false} SomePeer<T(!new)>(x: T, xs: seq<T>, before: (T, T) -> bool)
    requires Peers(x, xs, before) == []
    ensures forall k | 0 <= k < |xs| :: !Peer(x, xs[k], before)
  {
    if xs != [] {
      SomePeer(x, xs[1..], before);
      assert forall k | 0 < k < |xs| :: xs[k] == xs[1..][k - 1];
    }
  }

  /** Sorting leaves the last of several equivalent elements the last. */
  lemma SortedKeepsLast<T(!new)>(x: T, xs: seq<T>, before: (T, T) -> bool, j: nat) returns (i: nat)
    requires TotalPreorder(before) && LastPeerAt(x, xs, before, j)
    ensures LastPeerAt(x, Sorted(xs, before), before, i) && Sorted(xs, before)[i] == xs[j]
  {
    SortedIsStable(x, xs, before);
    LastPeerEndsPeers(x, xs, before, j);
    i := LastPeerExists(x, Sorted(xs, before), before);
    LastPeerEndsPeers(x, Sorted(xs, before), before, i);
  }
}
