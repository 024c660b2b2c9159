/** Which entries of a list a selection keeps, given by their places in ascending order. */
module Positions {
  import opened Grouping

  /** `at` enumerates the places `kept` in ascending order. */
  ghost predicate Ascending(at: seq<nat>, kept: set<nat>) {
    && |at| == |kept|
    && (forall j, k | 0 <= j < k < |at| :: at[j] < at[k])
    && (forall k | 0 <= k < |at| :: at[k] in kept)
  }

  /** Every place that is kept is enumerated. */
  lemma {:induction false} PlaceOf(at: seq<nat>, kept: set<nat>, i: nat) returns (k: nat)
    requires Ascending(at, kept) && i in kept
    ensures k < |at| && at[k] == i
  {
    k := |at| - 1;
    if at[k] != i {
      k := PlaceOf(at[..k], kept - {at[k]}, i);
    }
  }

  /** A list of some of the kept places, in order, that misses none enumerates them. */
  lemma {:induction false} Enumerates(at: seq<nat>, kept: set<nat>)
    requires forall j, k | 0 <= j < k < |at| :: at[j] < at[k]
    requires forall i :: i in kept <==> i in at
    ensures Ascending(at, kept)
  {
    if at == [] {
      assert kept == {};
    } else {
      var n := |at| - 1;
      var rest := kept - {at[n]};
      assert at == at[..n] + [at[n]];
      assert kept == rest + {at[n]};
      Enumerates(at[..n], rest);
    }
  }

  /** Looking at the next place adds it, if it is kept, to the end. */
  lemma NextPlace(at: seq<nat>, before: set<nat>, n: nat, keep: bool, after: set<nat>)
    requires Ascending(at, before) && forall i | i in before :: i < n
    requires after == if keep then before + {n} else before
    ensures Ascending(if keep then at + [n] else at, after)
  {}

  /** The entries at these places. */
  ghost function Chosen<V>(all: seq<V>, at: seq<nat>): (r: seq<V>)
    requires forall k | 0 <= k < |at| :: at[k] < |all|
    ensures |r| == |at| && forall k | 0 <= k < |at| :: r[k] == all[at[k]]
  {
    seq(|at|, k requires 0 <= k < |at| => all[at[k]])
  }

  // ---------------------------------------------------------------- the first of each name

  ghost function FirstPlaces<V>(xs: seq<V>, name: V -> string): set<nat> {
    set i: nat | i < |xs| && FirstAt(xs, i, name)
  }

  /** `kept` are the first bearers of their names, at these places. */
  ghost predicate FirstsOf<V>(xs: seq<V>, name: V -> string, kept: seq<V>, at: seq<nat>) {
    && Ascending(at, FirstPlaces(xs, name))
    && |kept| == |at|
    && forall k | 0 <= k < |at| :: at[k] < |xs| && kept[k] == xs[at[k]]
  }

  lemma FirstPlacesNext<V>(xs: seq<V>, name: V -> string, x: V)
    ensures FirstPlaces(xs + [x], name)
            == if Named(xs, name(x), name) then FirstPlaces(xs, name) else FirstPlaces(xs, name) + {|xs|}
  {
    var n, longer := |xs|, xs + [x];
    assert longer[n] == x && forall j | 0 <= j < n :: longer[j] == xs[j];
    assert forall i: nat | i < n :: FirstAt(longer, i, name) <==> FirstAt(xs, i, name);
  }

  lemma FirstsNext<V>(xs: seq<V>, name: V -> string, x: V, kept: seq<V>, at: seq<nat>)
    requires FirstsOf(xs, name, kept, at)
    ensures if Named(xs, name(x), name) then FirstsOf(xs + [x], name, kept, at)
            else FirstsOf(xs + [x], name, kept + [x], at + [|xs|])
  {
    FirstPlacesNext(xs, name, x);
    NextPlace(at, FirstPlaces(xs, name), |xs|, !Named(xs, name(x), name), FirstPlaces(xs + [x], name));
  }

  lemma NamedAmongKept<V>(xs: seq<V>, name: V -> string, s: string)
    ensures Named(FirstByName({}, xs, name), s, name) <==> Named(xs, s, name)
  {
    var kept := FirstByName({}, xs, name);
    FirstByNameKeepsNames({}, xs, name);
    if k :| 0 <= k < |kept| && name(kept[k]) == s {
      assert kept[k] in xs;
    }
  }

  /** Keeping the first of each name keeps exactly the first bearers, in order. */
  lemma {:induction false} KeptPlaces<V>(xs: seq<V>, name: V -> string) returns (at: seq<nat>)
    ensures FirstsOf(xs, name, FirstByName({}, xs, name), at)
  {
    at := [];
    if xs != [] {
      var n := |xs| - 1;
      at := KeptPlaces(xs[..n], name);
      FirstsNext(xs[..n], name, xs[n], FirstByName({}, xs[..n], name), at);
      NamedAmongKept(xs[..n], name, name(xs[n]));
      assert xs == xs[..n] + [xs[n]];
      if !Named(xs[..n], name(xs[n]), name) {
        at := at + [n];
      }
    }
  }
}
