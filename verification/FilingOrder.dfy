/** Where filed items come from: the input places of each bucket, and the order in which all of them come out. */
module FilingOrder {
  import opened Wrappers
  import opened Grouping

  /** The places of the items filed under `k`, in input order. */
  function Places<K(==), V>(xs: seq<V>, key: V -> K, k: K): (r: seq<nat>)
    ensures forall i | 0 <= i < |r| :: r[i] < |xs| && key(xs[r[i]]) == k
    ensures forall i, j | 0 <= i < j < |r| :: r[i] < r[j]
  {
    if xs == [] then []
    else
      var n := |xs| - 1;
      Places(xs[..n], key, k) + if key(xs[n]) == k then [n] else []
  }

  lemma {:induction false} PlacesOfBucket<K, V>(xs: seq<V>, key: V -> K, k: K)
    ensures |Places(xs, key, k)| == |Bucket(xs, key, k)|
    ensures forall g | 0 <= g < |Places(xs, key, k)| :: Bucket(xs, key, k)[g] == xs[Places(xs, key, k)[g]]
  {
    if xs != [] {
      PlacesOfBucket(xs[..|xs| - 1], key, k);
    }
  }

  /** Every place is among those of its key, after as many as there are earlier places of that key. */
  lemma {:induction false} PlaceOf<K, V>(xs: seq<V>, key: V -> K, p: nat)
    requires p < |xs|
    ensures var g := |Places(xs[..p], key, key(xs[p]))|;
            g < |Places(xs, key, key(xs[p]))| && Places(xs, key, key(xs[p]))[g] == p
  {
    var n := |xs| - 1;
    if p < n {
      PlaceOf(xs[..n], key, p);
      assert xs[..n][..p] == xs[..p];
    }
  }

  lemma {:induction false} SeenKeyHasPlace<K, V>(xs: seq<V>, key: V -> K, k: K)
    ensures k in Keys(xs, key) <==> Places(xs, key, k) != []
  {
    PlacesOfBucket(xs, key, k);
    KeysAreDistinct(xs, key);
  }

  /** Where the key was first seen. */
  function FirstSeen<K(==), V>(xs: seq<V>, key: V -> K, k: K): nat
    requires k in Keys(xs, key)
  {
    SeenKeyHasPlace(xs, key, k);
    Places(xs, key, k)[0]
  }

  lemma FirstSeenIsFirst<K, V>(xs: seq<V>, key: V -> K, k: K)
    requires k in Keys(xs, key)
    ensures var f := FirstSeen(xs, key, k);
            f < |xs| && key(xs[f]) == k && forall i | 0 <= i < f :: key(xs[i]) != k
  {
    var f := FirstSeen(xs, key, k);
    SeenKeyHasPlace(xs, key, k);
    forall i | 0 <= i < f
      ensures key(xs[i]) != k
    {
      if key(xs[i]) == k {
        PlaceOf(xs, key, i);
      }
    }
  }

  lemma FirstSeenStays<K, V>(xs: seq<V>, key: V -> K, k: K)
    requires xs != [] && k in Keys(xs[..|xs| - 1], key)
    ensures k in Keys(xs, key) && FirstSeen(xs, key, k) == FirstSeen(xs[..|xs| - 1], key, k) < |xs| - 1
  {
    SeenKeyHasPlace(xs[..|xs| - 1], key, k);
  }

  lemma FirstSeenNow<K, V>(xs: seq<V>, key: V -> K)
    requires xs != [] && key(xs[|xs| - 1]) !in Keys(xs[..|xs| - 1], key)
    ensures key(xs[|xs| - 1]) in Keys(xs, key) && FirstSeen(xs, key, key(xs[|xs| - 1])) == |xs| - 1
  {
    SeenKeyHasPlace(xs[..|xs| - 1], key, key(xs[|xs| - 1]));
  }

  /** The keys stand in the order in which they were first seen. */
  lemma {:induction false} KeysInFirstSeenOrder<K, V>(xs: seq<V>, key: V -> K, a: nat, b: nat)
    requires a < b < |Keys(xs, key)|
    ensures FirstSeen(xs, key, Keys(xs, key)[a]) < FirstSeen(xs, key, Keys(xs, key)[b])
    decreases |xs|
  {
    var n := |xs| - 1;
    var earlier, all := Keys(xs[..n], key), Keys(xs, key);
    KeysGrow(xs, key);
    FirstSeenStays(xs, key, earlier[a]);
    if b < |earlier| {
      KeysInFirstSeenOrder(xs[..n], key, a, b);
      FirstSeenStays(xs, key, earlier[b]);
    } else {
      FirstSeenNow(xs, key);
    }
  }

  lemma KeysGrow<K, V>(xs: seq<V>, key: V -> K)
    requires xs != []
    ensures var n := |xs| - 1;
            var earlier, all := Keys(xs[..n], key), Keys(xs, key);
            && |earlier| <= |all| <= |earlier| + 1
            && (forall a | 0 <= a < |earlier| :: all[a] == earlier[a])
            && (|all| > |earlier| ==> all[|earlier|] == key(xs[n]) && key(xs[n]) !in earlier)
  {}

  /** Item `p` comes out before item `q`: its key was seen earlier, or it is an earlier item of one key. */
  ghost predicate ComesOutBefore<K, V>(xs: seq<V>, key: V -> K, p: nat, q: nat)
    requires p < |xs| && q < |xs|
  {
    FirstSeen(xs, key, key(xs[p])) < FirstSeen(xs, key, key(xs[q])) || (key(xs[p]) == key(xs[q]) && p < q)
  }

  /** All places, key by key. */
  function AllPlaces<K(==), V>(xs: seq<V>, key: V -> K, ks: seq<K>): (r: seq<nat>)
    ensures forall i | 0 <= i < |r| :: r[i] < |xs| && key(xs[r[i]]) in ks
  {
    if ks == [] then []
    else
      var n := |ks| - 1;
      assert ks == ks[..n] + [ks[n]];
      AllPlaces(xs, key, ks[..n]) + Places(xs, key, ks[n])
  }

  /** These places come out one after another. */
  ghost predicate InTurn<K, V>(xs: seq<V>, key: V -> K, places: seq<nat>) {
    && (forall i | 0 <= i < |places| :: places[i] < |xs|)
    && (forall i, j | 0 <= i < j < |places| :: ComesOutBefore(xs, key, places[i], places[j]))
  }

  lemma InTurnGrows<K, V>(xs: seq<V>, key: V -> K, before: seq<nat>, last: seq<nat>)
    requires InTurn(xs, key, before) && InTurn(xs, key, last)
    requires forall i, j | 0 <= i < |before| && 0 <= j < |last| :: ComesOutBefore(xs, key, before[i], last[j])
    ensures InTurn(xs, key, before + last)
  {
    var all := before + last;
    forall i, j | 0 <= i < j < |all|
      ensures all[i] < |xs| && all[j] < |xs| && ComesOutBefore(xs, key, all[i], all[j])
    {
      if i >= |before| {
        assert all[i] == last[i - |before|] && all[j] == last[j - |before|];
      } else if j >= |before| {
        assert all[i] == before[i] && all[j] == last[j - |before|];
      }
    }
  }

  /** With the keys in first-seen order, the places come out in the order of `ComesOutBefore`. */
  lemma {:induction false} AllPlacesOrdered<K, V>(xs: seq<V>, key: V -> K, ks: seq<K>)
    requires forall k | k in ks :: k in Keys(xs, key)
    requires forall a, b | 0 <= a < b < |ks| :: FirstSeen(xs, key, ks[a]) < FirstSeen(xs, key, ks[b])
    ensures InTurn(xs, key, AllPlaces(xs, key, ks))
  {
    if ks != [] {
      var n := |ks| - 1;
      assert ks == ks[..n] + [ks[n]];
      AllPlacesOrdered(xs, key, ks[..n]);
      var before, last := AllPlaces(xs, key, ks[..n]), Places(xs, key, ks[n]);
      forall i, j | 0 <= i < |before| && 0 <= j < |last|
        ensures ComesOutBefore(xs, key, before[i], last[j])
      {
        LastKeySeenLast(xs, key, ks, key(xs[before[i]]));
        EarlierKeyFirst(xs, key, key(xs[before[i]]), ks[n], before[i], last[j]);
      }
      InTurnGrows(xs, key, before, last);
    }
  }

  lemma EarlierKeyFirst<K, V>(xs: seq<V>, key: V -> K, k: K, l: K, p: nat, q: nat)
    requires k in Keys(xs, key) && l in Keys(xs, key) && FirstSeen(xs, key, k) < FirstSeen(xs, key, l)
    requires p < |xs| && q < |xs| && key(xs[p]) == k && key(xs[q]) == l
    ensures ComesOutBefore(xs, key, p, q)
  {}

  lemma LastKeySeenLast<K, V>(xs: seq<V>, key: V -> K, ks: seq<K>, k: K)
    requires forall k | k in ks :: k in Keys(xs, key)
    requires forall a, b | 0 <= a < b < |ks| :: FirstSeen(xs, key, ks[a]) < FirstSeen(xs, key, ks[b])
    requires ks != [] && k in ks[..|ks| - 1]
    ensures k in ks && FirstSeen(xs, key, k) < FirstSeen(xs, key, ks[|ks| - 1])
  {
    var n := |ks| - 1;
    var a :| 0 <= a < n && ks[..n][a] == k;
    assert ks[a] == k;
  }

  /** The places of the earlier items with the key of item `p`. */
  ghost function Earlier<K, V>(xs: seq<V>, key: V -> K, p: nat): set<int>
    requires p < |xs|
  {
    set i | 0 <= i < p && key(xs[i]) == key(xs[p])
  }

  ghost function Rank<K, V>(xs: seq<V>, key: V -> K, p: nat): nat
    requires p < |xs|
  {
    |Earlier(xs, key, p)|
  }

  lemma {:induction false} PlacesCount<K, V>(xs: seq<V>, key: V -> K, k: K)
    ensures |Places(xs, key, k)| == |set i | 0 <= i < |xs| && key(xs[i]) == k|
  {
    var n := |xs| - 1;
    var here := set i | 0 <= i < |xs| && key(xs[i]) == k;
    if xs == [] {
      assert here == {};
    } else {
      PlacesCount(xs[..n], key, k);
      var before := set i | 0 <= i < |xs[..n]| && key(xs[..n][i]) == k;
      assert here == before + if key(xs[n]) == k then {n} else {};
    }
  }

  /** An item's place in its bucket is its rank. */
  lemma PlaceIsRank<K, V>(xs: seq<V>, key: V -> K, k: K, g: nat)
    requires g < |Places(xs, key, k)|
    ensures g == Rank(xs, key, Places(xs, key, k)[g])
  {
    var places := Places(xs, key, k);
    var p := places[g];
    PlaceOf(xs, key, p);
    var h := |Places(xs[..p], key, k)|;
    assert places[h] == p;
    assert h == g;
    PlacesCount(xs[..p], key, k);
    assert (set i | 0 <= i < |xs[..p]| && key(xs[..p][i]) == k) == Earlier(xs, key, p);
  }

  /** Transforming items without changing their keys changes no place. */
  lemma {:induction false} PlacesOfImages<K, V, W>(xs: seq<V>, ys: seq<W>, before: V -> K, after: W -> K, k: K)
    requires |xs| == |ys| && forall i | 0 <= i < |xs| :: after(ys[i]) == before(xs[i])
    ensures Places(ys, after, k) == Places(xs, before, k)
    ensures Keys(ys, after) == Keys(xs, before)
  {
    if xs != [] {
      var n := |xs| - 1;
      PlacesOfImages(xs[..n], ys[..n], before, after, k);
    }
  }
}
