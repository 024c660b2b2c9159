/**
 The `documents` table: one row per (document id, chunk index), the unique key that upserts
 conflict on, and the queries the sync code reads it through.
*/
module DocumentTable {
  import opened Wrappers

  /** A UUID, kept apart from other strings. */
  datatype DocId = DocId(hex: string)

  type Digest = string

  /** SHA-256 of a text and UUID version 5 of a name. Neither is assumed to be injective. */
  datatype Crypto = Crypto(sha256: string -> Digest, uuid5: string -> DocId)

  datatype Json = JsonText(text: string) | JsonNumber(number: int) | JsonNull | JsonOther(raw: string)

  type Metadata = map<string, Json>

  datatype Row = Row(
    title: string,
    content: string,
    source: Option<string>,
    metadata: Metadata,
    digest: Option<Digest>,
    model: Option<string>,
    embedding: seq<real>)

  type Key = (DocId, int)
  type Table = map<Key, Row>

  /** The table together with the number of write statements issued against it. */
  datatype Db = Db(table: Table, writes: nat)

  datatype Fingerprint = Fingerprint(index: int, digest: Option<Digest>, model: Option<string>)

  predicate IsFallbackSource(source: string) {
    "langflow:" <= source
  }

  predicate IsFallbackRow(row: Row) {
    row.source.Some? && IsFallbackSource(row.source.value)
  }

  /** The chunk indices stored for a document. */
  function Indices(t: Table, d: DocId): set<int> {
    set k | k in t && k.0 == d :: k.1
  }

  ghost predicate IsLeast(m: int, s: set<int>) {
    m in s && forall x | x in s :: m <= x
  }

  lemma SomeMember<T>(s: set<T>) returns (x: T)
    requires |s| > 0
    ensures x in s
  {
    x :| x in s;
  }

  lemma LeastExists(s: set<int>)
    requires |s| > 0
    ensures exists m :: IsLeast(m, s)
  {
    var y := SomeMember(s);
    var rest := s - {y};
    if |rest| > 0 {
      LeastExists(rest);
      var m :| IsLeast(m, rest);
      assert forall x | x in s :: x == y || x in rest;
      assert IsLeast(if m <= y then m else y, s);
    } else {
      assert s == {y} + rest;
      assert IsLeast(y, s);
    }
  }

  function Least(s: set<int>): (m: int)
    requires |s| > 0
    ensures IsLeast(m, s)
  {
    LeastExists(s);
    var m :| m in s && forall x | x in s :: m <= x;
    m
  }

  /** `ORDER BY`: the members of a set in ascending order. */
  function Ascending(s: set<int>): (r: seq<int>)
    ensures |r| == |s|
    ensures forall x :: x in r <==> x in s
    decreases |s|
  {
    if |s| == 0 then [] else [Least(s)] + Ascending(s - {Least(s)})
  }

  ghost predicate StrictlyAscending(r: seq<int>) {
    forall i, j :: 0 <= i < j < |r| ==> r[i] < r[j]
  }

  lemma {:induction false} AscendingAscends(s: set<int>)
    ensures StrictlyAscending(Ascending(s))
    decreases |s|
  {
    if |s| > 0 {
      var tail := Ascending(s - {Least(s)});
      AscendingAscends(s - {Least(s)});
      assert forall x :: x in tail ==> Least(s) < x;
    }
  }

  /** An ordered list of `n` integers that misses none of `lo..lo+n-1` is exactly that range. */
  lemma {:induction false} OrderedCoverIsRange(r: seq<int>, lo: int)
    requires forall i, j :: 0 <= i < j < |r| ==> r[i] <= r[j]
    requires forall x | lo <= x < lo + |r| :: x in r
    ensures forall i :: 0 <= i < |r| ==> r[i] == lo + i
  {
    if r != [] {
      var n := |r| - 1;
      assert lo + n in r && lo + n <= r[n];
      forall x | lo <= x < lo + n
        ensures x in r[..n]
      {
        assert x in r && x != r[n];
        assert r == r[..n] + [r[n]];
      }
      OrderedCoverIsRange(r[..n], lo);
    }
  }

  lemma {:induction false} RangeSize(s: set<int>, n: nat)
    requires forall x: int :: x in s <==> 0 <= x < n
    ensures |s| == n
  {
    if n == 0 {
      if |s| > 0 {
        var x := SomeMember(s);
        assert false;
      }
    } else {
      RangeSize(s - {n - 1}, n - 1);
      assert |s - {n - 1}| == |s| - 1;
    }
  }

  lemma IndicesMeaning(t: Table, d: DocId)
    ensures forall i: int :: i in Indices(t, d) <==> (d, i) in t
  {}

  function FingerprintAt(t: Table, d: DocId, i: int): Fingerprint
    requires (d, i) in t
  {
    Fingerprint(i, t[(d, i)].digest, t[(d, i)].model)
  }

  /** `SELECT chunk_index, content_hash, embedding_model ... ORDER BY chunk_index`. */
  function Fingerprints(t: Table, d: DocId): (r: seq<Fingerprint>)
    ensures |r| == |Indices(t, d)|
    ensures forall i | 0 <= i < |r| ::
              (d, Ascending(Indices(t, d))[i]) in t && r[i] == FingerprintAt(t, d, Ascending(Indices(t, d))[i])
  {
    IndicesMeaning(t, d);
    var order := Ascending(Indices(t, d));
    assert forall i | 0 <= i < |order| :: order[i] in order;
    seq(|order|, i requires 0 <= i < |order| => FingerprintAt(t, d, order[i]))
  }

  /** The listing misses no row of the document and comes in strictly ascending order of chunk index. */
  lemma FingerprintsAreTheRows(t: Table, d: DocId)
    ensures var rows := Fingerprints(t, d);
            && (forall i, j | 0 <= i < j < |rows| :: rows[i].index < rows[j].index)
            && (forall row | row in rows :: (d, row.index) in t && row == FingerprintAt(t, d, row.index))
            && (forall i: int | (d, i) in t :: FingerprintAt(t, d, i) in rows)
  {
    var rows, order := Fingerprints(t, d), Ascending(Indices(t, d));
    AscendingAscends(Indices(t, d));
    IndicesMeaning(t, d);
    assert forall k | 0 <= k < |rows| :: rows[k].index == order[k];
    forall i: int | (d, i) in t
      ensures FingerprintAt(t, d, i) in rows
    {
      var k :| 0 <= k < |order| && order[k] == i;
      assert rows[k] == FingerprintAt(t, d, i);
    }
  }

  /** The digests of all rows that did not come from a Langflow fallback source. */
  function HostHashes(t: Table): set<Digest> {
    set k | k in t && t[k].digest.Some? && !IsFallbackRow(t[k]) :: t[k].digest.value
  }

  function FallbackFingerprints(t: Table): set<(DocId, Digest)> {
    set k | k in t && t[k].digest.Some? && IsFallbackRow(t[k]) :: (k.0, t[k].digest.value)
  }

  function DeleteDocument(t: Table, d: DocId): Table {
    map k | k in t && k.0 != d :: t[k]
  }

  /** Outside document `d` the two tables hold the same rows. */
  ghost predicate SameOutside(t: Table, u: Table, d: DocId) {
    forall k: Key | k.0 != d :: (k in t <==> k in u) && (k in t ==> t[k] == u[k])
  }

  /** `VectorRepository` with the connection pool abstracted away. */
  class VectorRepository {
    var table: Table
    var writes: nat

    constructor (t: Table)
      ensures table == t && writes == 0
    {
      table, writes := t, 0;
    }

    ghost function Contents(): Db
      reads this
    {
      Db(table, writes)
    }

    method ListChunkFingerprints(d: DocId) returns (rows: seq<Fingerprint>)
      ensures forall i, j | 0 <= i < j < |rows| :: rows[i].index < rows[j].index
      ensures forall row | row in rows :: (d, row.index) in table && row == FingerprintAt(table, d, row.index)
      ensures forall i: int | (d, i) in table :: FingerprintAt(table, d, i) in rows
      ensures rows == Fingerprints(table, d)
    {
      FingerprintsAreTheRows(table, d);
      rows := Fingerprints(table, d);
    }

    method ListHostPathHashes() returns (hashes: set<Digest>)
      ensures forall k | k in table && table[k].digest.Some? && !IsFallbackRow(table[k]) ::
                table[k].digest.value in hashes
      ensures forall h | h in hashes :: exists k :: k in table && table[k].digest == Some(h) && !IsFallbackRow(table[k])
      ensures hashes == HostHashes(table)
    {
      hashes := HostHashes(table);
    }

    /** Without an ORDER BY the rows arrive in any order. */
    method ListFallbackFingerprints() returns (rows: seq<(DocId, Digest)>)
      ensures forall p :: p in rows <==> p in FallbackFingerprints(table)
    {
      rows := [];
      var left := FallbackFingerprints(table);
      while left != {}
        invariant left <= FallbackFingerprints(table)
        invariant forall p :: p in rows <==> p in FallbackFingerprints(table) - left
        decreases left
      {
        var p :| p in left;
        rows := rows + [p];
        left := left - {p};
      }
    }

    method DeleteByDocumentId(d: DocId)
      modifies this
      ensures forall i: int :: (d, i) !in table
      ensures SameOutside(old(table), table, d)
      ensures Contents() == Db(DeleteDocument(old(table), d), old(writes) + 1)
    {
      table := DeleteDocument(table, d);
      writes := writes + 1;
    }

    method UpsertDocument(d: DocId, index: int, row: Row)
      modifies this
      ensures Contents() == Db(old(table)[(d, index) := row], old(writes) + 1)
    {
      table := table[(d, index) := row];
      writes := writes + 1;
    }
  }
}
