/**
 Importing a batch of chunks: every document of the batch is synced unless it is a Langflow
 fallback whose content a host document already holds, then stored fallbacks that share a digest
 with a host document are removed.
*/
module Reconciliation {
  import opened Wrappers
  import opened DocumentTable
  import opened DocumentSync
  import opened LangflowMapping
  import opened Grouping
  import opened StableSort
  import Text

  type Batch = seq<MappedChunk>

  function AsDraft(x: MappedChunk): ChunkDraft {
    ChunkDraft(x.documentId, x.chunkIndex, x.title, x.content, Some(x.source), x.embedding, Some(x.metadata))
  }

  function Group(chunks: Batch, d: DocId): seq<MappedChunk> {
    Bucket(chunks, ByDocument, d)
  }

  function Documents(chunks: Batch): seq<DocId> {
    Keys(chunks, ByDocument)
  }

  function Drafts(chunks: Batch, d: DocId): seq<ChunkDraft> {
    Map(AsDraft, Group(chunks, d))
  }

  function IncomingHostHashes(c: Crypto, chunks: Batch): set<Digest> {
    set x | x in chunks && !IsFallbackSource(x.source) :: c.sha256(x.content)
  }

  predicate SharesHash(c: Crypto, group: seq<MappedChunk>, hostHashes: set<Digest>) {
    exists x | x in group :: c.sha256(x.content) in hostHashes
  }

  predicate ShouldSyncGroup(c: Crypto, group: seq<MappedChunk>, hostHashes: set<Digest>) {
    group != [] && (!IsFallbackSource(group[0].source) || !SharesHash(c, group, hostHashes))
  }

  function SyncGroup(c: Crypto, chunks: Batch, db: Db, d: DocId, hostHashes: set<Digest>, model: string): (Db, nat) {
    if ShouldSyncGroup(c, Group(chunks, d), hostHashes) then
      (SyncOrdered(c, db, d, Sorted(Drafts(chunks, d), ByIndex), model).0, |Group(chunks, d)|)
    else (db, 0)
  }

  function SyncGroups(c: Crypto, chunks: Batch, db: Db, ds: seq<DocId>, hostHashes: set<Digest>, model: string)
    : (Db, nat)
  {
    if ds == [] then (db, 0)
    else
      var (before, count) := SyncGroups(c, chunks, db, ds[..|ds| - 1], hostHashes, model);
      var (after, more) := SyncGroup(c, chunks, before, ds[|ds| - 1], hostHashes, model);
      (after, count + more)
  }

  /** The fallback documents that share a digest with `hostHashes`. */
  function Doomed(t: Table, hostHashes: set<Digest>): set<DocId> {
    set p | p in FallbackFingerprints(t) && p.1 in hostHashes :: p.0
  }

  function DeleteAll(t: Table, ds: set<DocId>): Table {
    map k | k in t && k.0 !in ds :: t[k]
  }

  function Cleanup(db: Db, hostHashes: set<Digest>): Db {
    var ds := Doomed(db.table, hostHashes);
    Db(DeleteAll(db.table, ds), db.writes + |ds|)
  }

  function BlockingHashes(c: Crypto, t: Table, chunks: Batch): set<Digest> {
    HostHashes(t) + IncomingHostHashes(c, chunks)
  }

  function Synced(c: Crypto, db: Db, chunks: Batch, model: string): (Db, nat) {
    SyncGroups(c, chunks, db, Documents(chunks), BlockingHashes(c, db.table, chunks), model)
  }

  /** One import: the database it leaves and the number of chunks it reports. */
  function Run(c: Crypto, db: Db, chunks: Batch, model: string): (Db, nat) {
    var (mid, count) := Synced(c, db, chunks, model);
    (Cleanup(mid, BlockingHashes(c, mid.table, chunks)), count)
  }

  // ---------------------------------------------------------------- well-formedness

  /** Whether a row is a fallback depends on its document only. */
  ghost predicate Kinded(t: Table, kind: DocId -> bool) {
    forall k | k in t :: IsFallbackRow(t[k]) <==> kind(k.0)
  }

  ghost predicate WellFormed(chunks: Batch, kind: DocId -> bool) {
    && NumberedByDocument(chunks)
    && forall x | x in chunks :: IsFallbackSource(x.source) <==> kind(x.documentId)
  }

  /** The stored rows of `d` are the batch's chunks of `d`, by digest, under this model. */
  ghost predicate UpToDate(c: Crypto, t: Table, chunks: Batch, d: DocId, model: string) {
    StoredAs(t, d, Digests(c, Drafts(chunks, d)), model)
  }

  lemma DraftsFit(chunks: Batch, kind: DocId -> bool, d: DocId)
    requires WellFormed(chunks, kind)
    ensures forall y | y in Drafts(chunks, d) ::
              y.documentId == d && y.source.Some? && (IsFallbackSource(y.source.value) <==> kind(d))
  {
    var group := Group(chunks, d);
    forall y | y in Drafts(chunks, d)
      ensures y.documentId == d && y.source.Some? && (IsFallbackSource(y.source.value) <==> kind(d))
    {
      var i :| 0 <= i < |group| && AsDraft(group[i]) == y;
      assert group[i] in group;
    }
  }

  lemma GroupFacts(chunks: Batch, kind: DocId -> bool, d: DocId)
    requires WellFormed(chunks, kind) && d in Documents(chunks)
    ensures Group(chunks, d) != []
    ensures IsFallbackSource(Group(chunks, d)[0].source) <==> kind(d)
    ensures OneDocument(Drafts(chunks, d), d) && Numbered(Drafts(chunks, d))
    ensures Sorted(Drafts(chunks, d), ByIndex) == Drafts(chunks, d)
    ensures forall y | y in Drafts(chunks, d) :: y.source.Some? && (IsFallbackSource(y.source.value) <==> kind(d))
  {
    KeysAreDistinct(chunks, ByDocument);
    var group := Group(chunks, d);
    assert group[0] in group;
    DraftsFit(chunks, kind, d);
    SortedFixpointIffOrdered(Drafts(chunks, d), ByIndex);
  }

  lemma DocumentOf(chunks: Batch, x: MappedChunk)
    requires x in chunks
    ensures x.documentId in Documents(chunks) && x in Group(chunks, x.documentId)
  {}

  // ---------------------------------------------------------------- the syncing pass

  lemma SyncGroupEffect(
    c: Crypto, chunks: Batch, kind: DocId -> bool, db: Db, d: DocId, hostHashes: set<Digest>, model: string)
    requires WellFormed(chunks, kind) && d in Documents(chunks) && Kinded(db.table, kind)
    ensures var (after, count) := SyncGroup(c, chunks, db, d, hostHashes, model);
            var wanted := ShouldSyncGroup(c, Group(chunks, d), hostHashes);
            && SameOutside(db.table, after.table, d)
            && Kinded(after.table, kind)
            && (wanted ==> UpToDate(c, after.table, chunks, d, model))
            && (wanted ==> count == |Digests(c, Drafts(chunks, d))|)
            && (!wanted || UpToDate(c, db.table, chunks, d, model) ==> after == db)
            && (wanted && !UpToDate(c, db.table, chunks, d, model) ==> after.writes > db.writes)
  {
    GroupFacts(chunks, kind, d);
    var drafts := Drafts(chunks, d);
    OrderedStoresIncoming(c, db, d, drafts, model);
    MatchIffStored(db.table, d, Digests(c, drafts), model);
    ReplaceRows(c, db.table, d, drafts, model);
  }

  ghost predicate Wanted(c: Crypto, chunks: Batch, ds: seq<DocId>, hostHashes: set<Digest>, d: DocId) {
    d in ds && ShouldSyncGroup(c, Group(chunks, d), hostHashes)
  }

  ghost predicate WantedUpToDate(
    c: Crypto, t: Table, chunks: Batch, ds: seq<DocId>, hostHashes: set<Digest>, model: string)
  {
    forall d | Wanted(c, chunks, ds, hostHashes, d) :: UpToDate(c, t, chunks, d, model)
  }

  ghost predicate SameRow(t: Table, u: Table, k: Key) {
    (k in t <==> k in u) && (k in t ==> t[k] == u[k])
  }

  lemma UpToDateFrame(c: Crypto, t: Table, u: Table, chunks: Batch, d: DocId, model: string)
    requires forall i: int :: SameRow(t, u, (d, i))
    ensures UpToDate(c, t, chunks, d, model) <==> UpToDate(c, u, chunks, d, model)
  {}

  lemma {:induction false} SyncGroupsEffect(
    c: Crypto, chunks: Batch, kind: DocId -> bool, db: Db, ds: seq<DocId>, hostHashes: set<Digest>, model: string)
    requires WellFormed(chunks, kind) && Kinded(db.table, kind)
    requires Distinct(ds) && forall d | d in ds :: d in Documents(chunks)
    ensures var after := SyncGroups(c, chunks, db, ds, hostHashes, model).0;
            && Kinded(after.table, kind)
            && WantedUpToDate(c, after.table, chunks, ds, hostHashes, model)
            && (forall k: Key | !Wanted(c, chunks, ds, hostHashes, k.0) :: SameRow(db.table, after.table, k))
            && after.writes >= db.writes
            && (after.writes == db.writes <==> WantedUpToDate(c, db.table, chunks, ds, hostHashes, model))
            && (after.writes == db.writes ==> after == db)
  {
    if ds != [] {
      var n := |ds| - 1;
      var last := ds[n];
      assert ds == ds[..n] + [last];
      SyncGroupsEffect(c, chunks, kind, db, ds[..n], hostHashes, model);
      var before := SyncGroups(c, chunks, db, ds[..n], hostHashes, model).0;
      var after := SyncGroups(c, chunks, db, ds, hostHashes, model).0;
      SyncGroupEffect(c, chunks, kind, before, last, hostHashes, model);
      UpToDateFrame(c, db.table, before.table, chunks, last, model);
      forall d | Wanted(c, chunks, ds, hostHashes, d)
        ensures UpToDate(c, after.table, chunks, d, model)
      {
        if d != last {
          assert Wanted(c, chunks, ds[..n], hostHashes, d);
          UpToDateFrame(c, before.table, after.table, chunks, d, model);
        }
      }
      assert forall d :: Wanted(c, chunks, ds[..n], hostHashes, d) ==> Wanted(c, chunks, ds, hostHashes, d);
    }
  }

  // ---------------------------------------------------------------- the host digests

  /** Digests of stored host documents that the batch does not carry. */
  ghost function OutsideHashes(t: Table, chunks: Batch, kind: DocId -> bool): set<Digest> {
    set k | k in t && t[k].digest.Some? && !kind(k.0) && k.0 !in Documents(chunks) :: t[k].digest.value
  }

  /** The host digests that are left once every host document of the batch is in place. */
  ghost function FinalHashes(c: Crypto, t: Table, chunks: Batch, kind: DocId -> bool): set<Digest> {
    IncomingHostHashes(c, chunks) + OutsideHashes(t, chunks, kind)
  }

  lemma StoredDigest(c: Crypto, t: Table, chunks: Batch, kind: DocId -> bool, k: Key, model: string)
    returns (x: MappedChunk)
    requires WellFormed(chunks, kind)
    requires k in t && k.0 in Documents(chunks) && UpToDate(c, t, chunks, k.0, model)
    ensures x in Group(chunks, k.0) && t[k].digest == Some(c.sha256(x.content))
  {
    GroupFacts(chunks, kind, k.0);
    assert (k.0, k.1) in t;
    x := Group(chunks, k.0)[k.1];
  }

  lemma HostRowIn(t: Table, k: Key)
    requires k in t && t[k].digest.Some? && !IsFallbackRow(t[k])
    ensures t[k].digest.value in HostHashes(t)
  {}

  lemma HostHashesSplit(c: Crypto, t: Table, chunks: Batch, kind: DocId -> bool, model: string)
    requires WellFormed(chunks, kind) && Kinded(t, kind)
    requires forall d | d in Documents(chunks) && !kind(d) :: UpToDate(c, t, chunks, d, model)
    ensures BlockingHashes(c, t, chunks) == FinalHashes(c, t, chunks, kind)
  {
    forall h | h in HostHashes(t)
      ensures h in FinalHashes(c, t, chunks, kind)
    {
      var k :| k in t && t[k].digest.Some? && !IsFallbackRow(t[k]) && t[k].digest.value == h;
      if k.0 in Documents(chunks) {
        var x := StoredDigest(c, t, chunks, kind, k, model);
        assert x in chunks && x.documentId == k.0;
      }
    }
  }

  lemma OutsideHashesFrame(t: Table, u: Table, chunks: Batch, kind: DocId -> bool)
    requires forall k: Key | !kind(k.0) && k.0 !in Documents(chunks) :: SameRow(t, u, k)
    ensures OutsideHashes(t, chunks, kind) == OutsideHashes(u, chunks, kind)
  {}

  /** A row that makes its document a target of the cleanup. */
  ghost predicate Blocked(t: Table, k: Key, hostHashes: set<Digest>) {
    k in t && IsFallbackRow(t[k]) && t[k].digest.Some? && t[k].digest.value in hostHashes
  }

  lemma DoomedMeaning(t: Table, hostHashes: set<Digest>, d: DocId)
    ensures d in Doomed(t, hostHashes) <==> exists k: Key :: Blocked(t, k, hostHashes) && k.0 == d
  {
    if d in Doomed(t, hostHashes) {
      var p :| p in FallbackFingerprints(t) && p.1 in hostHashes && p.0 == d;
      var k: Key :| k in t && t[k].digest.Some? && IsFallbackRow(t[k]) && (k.0, t[k].digest.value) == p;
      assert Blocked(t, k, hostHashes);
    }
    if k: Key :| Blocked(t, k, hostHashes) && k.0 == d {
      var p := (k.0, t[k].digest.value);
      assert p in FallbackFingerprints(t) && p.1 in hostHashes;
    }
  }

  lemma HostNeverDoomed(t: Table, kind: DocId -> bool, hostHashes: set<Digest>, d: DocId)
    requires Kinded(t, kind) && !kind(d)
    ensures d !in Doomed(t, hostHashes)
  {}

  // ---------------------------------------------------------------- any batch, any table

  lemma DraftsOfGroup(chunks: Batch, d: DocId, y: ChunkDraft) returns (x: MappedChunk)
    requires y in Sorted(Drafts(chunks, d), ByIndex)
    ensures x in Group(chunks, d) && y == AsDraft(x) && y.documentId == d
  {
    assert y in multiset(Drafts(chunks, d));
    var i :| 0 <= i < |Drafts(chunks, d)| && Drafts(chunks, d)[i] == y;
    x := Group(chunks, d)[i];
  }

  lemma SortedDraftsFit(chunks: Batch, d: DocId)
    requires Group(chunks, d) != []
    ensures OneDocument(Sorted(Drafts(chunks, d), ByIndex), d)
    ensures |Sorted(Drafts(chunks, d), ByIndex)| == |Group(chunks, d)|
  {
    var ordered := Sorted(Drafts(chunks, d), ByIndex);
    assert |multiset(ordered)| == |multiset(Drafts(chunks, d))|;
    forall y | y in ordered
      ensures y.documentId == d
    {
      var x := DraftsOfGroup(chunks, d, y);
    }
  }

  /** A row that the batch's chunk `x` makes. */
  ghost predicate RowFrom(c: Crypto, row: Row, x: MappedChunk, model: string) {
    row == RowOf(c, AsDraft(x), model)
  }

  ghost predicate RowFromGroup(c: Crypto, row: Row, group: seq<MappedChunk>, model: string) {
    exists x :: x in group && RowFrom(c, row, x, model)
  }

  /** A replaced document has the rows of its group, and the other documents keep theirs. */
  lemma ReplacedRows(c: Crypto, chunks: Batch, t: Table, d: DocId, model: string)
    requires Group(chunks, d) != []
    ensures var u := Replace(c, t, d, Sorted(Drafts(chunks, d), ByIndex), model);
            && SameOutside(t, u, d)
            && forall k: Key | k in u && k.0 == d :: RowFromGroup(c, u[k], Group(chunks, d), model)
  {
    var ordered := Sorted(Drafts(chunks, d), ByIndex);
    SortedDraftsFit(chunks, d);
    ReplaceRows(c, t, d, ordered, model);
    var u := Replace(c, t, d, ordered, model);
    forall k: Key | k in u && k.0 == d
      ensures RowFromGroup(c, u[k], Group(chunks, d), model)
    {
      assert (d, k.1) in u;
      var y :| y in ordered && y.chunkIndex == k.1 && u[(d, k.1)] == RowOf(c, y, model);
      var x := DraftsOfGroup(chunks, d, y);
      assert RowFrom(c, u[k], x, model);
    }
  }

  /** Syncing one group leaves the other documents alone. */
  lemma SyncGroupFrame(c: Crypto, chunks: Batch, db: Db, d: DocId, hostHashes: set<Digest>, model: string)
    ensures SameOutside(db.table, SyncGroup(c, chunks, db, d, hostHashes, model).0.table, d)
  {
    if ShouldSyncGroup(c, Group(chunks, d), hostHashes) {
      ReplacedRows(c, chunks, db.table, d, model);
    }
  }

  /** What one group's rows are after it has been synced: the stored ones, or made from its chunks. */
  lemma SyncGroupRows(c: Crypto, chunks: Batch, db: Db, d: DocId, hostHashes: set<Digest>, model: string, k: Key)
    requires k in SyncGroup(c, chunks, db, d, hostHashes, model).0.table
    ensures var after := SyncGroup(c, chunks, db, d, hostHashes, model).0.table;
            || (k in db.table && after[k] == db.table[k])
            || (k.0 == d && RowFromGroup(c, after[k], Group(chunks, d), model))
  {
    if ShouldSyncGroup(c, Group(chunks, d), hostHashes) {
      ReplacedRows(c, chunks, db.table, d, model);
    }
  }

  /** Skipped or replaced, a synced document has digests of its group only. */
  lemma SyncGroupDigests(c: Crypto, chunks: Batch, db: Db, d: DocId, hostHashes: set<Digest>, model: string, k: Key)
    returns (x: MappedChunk)
    requires ShouldSyncGroup(c, Group(chunks, d), hostHashes) && k.0 == d
    requires k in SyncGroup(c, chunks, db, d, hostHashes, model).0.table
    ensures x in Group(chunks, d)
    ensures SyncGroup(c, chunks, db, d, hostHashes, model).0.table[k].digest == Some(c.sha256(x.content))
  {
    var ordered := Sorted(Drafts(chunks, d), ByIndex);
    if FingerprintsMatch(db.table, d, Digests(c, ordered), model) {
      MatchIffStored(db.table, d, Digests(c, ordered), model);
      assert (d, k.1) in db.table;
      x := DraftsOfGroup(chunks, d, ordered[k.1]);
    } else {
      ReplacedRows(c, chunks, db.table, d, model);
      var row := SyncGroup(c, chunks, db, d, hostHashes, model).0.table[k];
      x :| x in Group(chunks, d) && RowFrom(c, row, x, model);
    }
  }

  lemma {:induction false} SyncGroupsFrame(
    c: Crypto, chunks: Batch, db: Db, ds: seq<DocId>, hostHashes: set<Digest>, model: string, k: Key)
    requires k.0 !in ds
    ensures SameRow(db.table, SyncGroups(c, chunks, db, ds, hostHashes, model).0.table, k)
  {
    if ds != [] {
      var n := |ds| - 1;
      assert ds == ds[..n] + [ds[n]];
      SyncGroupsFrame(c, chunks, db, ds[..n], hostHashes, model, k);
      SyncGroupFrame(c, chunks, SyncGroups(c, chunks, db, ds[..n], hostHashes, model).0, ds[n], hostHashes, model);
    }
  }

  lemma {:induction false} SyncGroupsRows(
    c: Crypto, chunks: Batch, db: Db, ds: seq<DocId>, hostHashes: set<Digest>, model: string, k: Key)
    requires k in SyncGroups(c, chunks, db, ds, hostHashes, model).0.table
    ensures var after := SyncGroups(c, chunks, db, ds, hostHashes, model).0.table;
            || (k in db.table && after[k] == db.table[k])
            || RowFromGroup(c, after[k], Group(chunks, k.0), model)
  {
    if ds != [] {
      var n := |ds| - 1;
      var before := SyncGroups(c, chunks, db, ds[..n], hostHashes, model).0;
      SyncGroupRows(c, chunks, before, ds[n], hostHashes, model, k);
      if k in before.table {
        SyncGroupsRows(c, chunks, db, ds[..n], hostHashes, model, k);
      }
    }
  }

  lemma {:induction false} SyncGroupsDigests(
    c: Crypto, chunks: Batch, db: Db, ds: seq<DocId>, hostHashes: set<Digest>, model: string, k: Key)
    returns (x: MappedChunk)
    requires Distinct(ds) && Wanted(c, chunks, ds, hostHashes, k.0)
    requires k in SyncGroups(c, chunks, db, ds, hostHashes, model).0.table
    ensures x in Group(chunks, k.0)
    ensures SyncGroups(c, chunks, db, ds, hostHashes, model).0.table[k].digest == Some(c.sha256(x.content))
  {
    var n := |ds| - 1;
    assert ds == ds[..n] + [ds[n]];
    var before := SyncGroups(c, chunks, db, ds[..n], hostHashes, model).0;
    if ds[n] == k.0 {
      x := SyncGroupDigests(c, chunks, before, k.0, hostHashes, model, k);
    } else {
      SyncGroupFrame(c, chunks, before, ds[n], hostHashes, model);
      x := SyncGroupsDigests(c, chunks, db, ds[..n], hostHashes, model, k);
    }
  }

  /** The syncing pass brings in no host digest that did not block the batch before. */
  lemma BlockingOnlyShrinks(c: Crypto, db: Db, chunks: Batch, model: string)
    ensures var mid := Synced(c, db, chunks, model).0;
            BlockingHashes(c, mid.table, chunks) <= BlockingHashes(c, db.table, chunks)
  {
    var mid := Synced(c, db, chunks, model).0;
    forall h | h in HostHashes(mid.table)
      ensures h in BlockingHashes(c, db.table, chunks)
    {
      var k :| k in mid.table && mid.table[k].digest.Some? && !IsFallbackRow(mid.table[k])
               && mid.table[k].digest.value == h;
      SyncGroupsRows(c, chunks, db, Documents(chunks), BlockingHashes(c, db.table, chunks), model, k);
      if k in db.table && mid.table[k] == db.table[k] {
        HostRowIn(db.table, k);
      } else {
        var x :| x in Group(chunks, k.0) && RowFrom(c, mid.table[k], x, model);
        assert x in chunks && !IsFallbackSource(x.source);
      }
    }
  }

  /** The stored rows of `d` have the fingerprints of the batch. */
  ghost predicate Matched(c: Crypto, t: Table, chunks: Batch, d: DocId, model: string) {
    FingerprintsMatch(t, d, Digests(c, Sorted(Drafts(chunks, d), ByIndex)), model)
  }

  lemma MatchFrame(t: Table, u: Table, d: DocId, digests: seq<Digest>, model: string)
    requires forall i: int :: SameRow(t, u, (d, i))
    ensures FingerprintsMatch(t, d, digests, model) <==> FingerprintsMatch(u, d, digests, model)
  {
    MatchIffStored(t, d, digests, model);
    MatchIffStored(u, d, digests, model);
    assert StoredAs(t, d, digests, model) <==> StoredAs(u, d, digests, model);
  }

  /** After every import, of any batch into any table, no stored fallback row shares a digest with a stored host row. */
  lemma FallbacksAndHostsAreDisjoint(c: Crypto, db: Db, chunks: Batch, model: string)
    ensures var after := Run(c, db, chunks, model).0.table;
            forall k, h | k in after && h in after && IsFallbackRow(after[k]) && !IsFallbackRow(after[h])
                          && after[h].digest.Some? :: after[k].digest != after[h].digest
  {
    var mid, after := Synced(c, db, chunks, model).0.table, Run(c, db, chunks, model).0.table;
    var blocking := BlockingHashes(c, mid, chunks);
    assert after == DeleteAll(mid, Doomed(mid, blocking));
    forall k, h | k in after && h in after && IsFallbackRow(after[k]) && !IsFallbackRow(after[h])
                  && after[h].digest.Some?
      ensures after[k].digest != after[h].digest
    {
      HostRowIn(mid, h);
      DoomedMeaning(mid, blocking, k.0);
      assert !Blocked(mid, k, blocking);
    }
  }

  /**
   A document that the batch does not carry keeps all its rows exactly if none of them is a fallback
   row with a digest that the cleanup looks for; otherwise it loses them all.
  */
  lemma OutsideDocumentStaysIff(c: Crypto, db: Db, chunks: Batch, model: string, d: DocId)
    requires d !in Documents(chunks)
    ensures var after := Run(c, db, chunks, model).0.table;
            var blocking := BlockingHashes(c, Synced(c, db, chunks, model).0.table, chunks);
            if exists k: Key :: Blocked(db.table, k, blocking) && k.0 == d
            then forall k: Key | k.0 == d :: k !in after
            else forall k: Key | k.0 == d :: SameRow(db.table, after, k)
  {
    var mid := Synced(c, db, chunks, model).0.table;
    var blocking := BlockingHashes(c, mid, chunks);
    forall k: Key | k.0 == d
      ensures SameRow(db.table, mid, k)
    {
      SyncGroupsFrame(c, chunks, db, Documents(chunks), BlockingHashes(c, db.table, chunks), model, k);
    }
    assert forall k: Key | k.0 == d :: Blocked(mid, k, blocking) <==> Blocked(db.table, k, blocking);
    DoomedMeaning(mid, blocking, d);
  }

  /** Host documents that the batch does not carry are left as they were. */
  lemma OtherHostsUntouched(c: Crypto, db: Db, chunks: Batch, model: string, k: Key)
    requires k.0 !in Documents(chunks)
    requires forall i: int | (k.0, i) in db.table :: !IsFallbackRow(db.table[(k.0, i)])
    ensures SameRow(db.table, Run(c, db, chunks, model).0.table, k)
  {
    OutsideDocumentStaysIff(c, db, chunks, model, k.0);
    var blocking := BlockingHashes(c, Synced(c, db, chunks, model).0.table, chunks);
    forall j: Key | j.0 == k.0
      ensures !Blocked(db.table, j, blocking)
    {
      var i := j.1;
      assert j == (k.0, i);
      if (k.0, i) in db.table {
        assert !IsFallbackRow(db.table[(k.0, i)]);
      }
    }
  }

  /** Neither the batch nor the table has a fallback under this id. */
  ghost predicate HostOnly(t: Table, chunks: Batch, d: DocId) {
    && (forall x | x in Group(chunks, d) :: !IsFallbackSource(x.source))
    && (forall i: int | (d, i) in t :: !IsFallbackRow(t[(d, i)]))
  }

  /** The batch's chunks of this id start with a fallback, or there is no fallback under the id at all. */
  ghost predicate OneKind(t: Table, chunks: Batch, d: DocId) {
    (Group(chunks, d) != [] && IsFallbackSource(Group(chunks, d)[0].source)) || HostOnly(t, chunks, d)
  }

  /**
   A group that was synced is never removed by the cleanup of the same run, in any batch and table:
   not if it starts as a fallback, and not if there is no fallback under its id.
  */
  lemma SyncedGroupSurvives(c: Crypto, db: Db, chunks: Batch, model: string, k: Key)
    requires Wanted(c, chunks, Documents(chunks), BlockingHashes(c, db.table, chunks), k.0)
    requires OneKind(db.table, chunks, k.0)
    ensures SameRow(Synced(c, db, chunks, model).0.table, Run(c, db, chunks, model).0.table, k)
  {
    var mid := Synced(c, db, chunks, model).0.table;
    var blocking := BlockingHashes(c, mid, chunks);
    KeysAreDistinct(chunks, ByDocument);
    DoomedMeaning(mid, blocking, k.0);
    if j: Key :| Blocked(mid, j, blocking) && j.0 == k.0 {
      BlockedIsUnwanted(c, db, chunks, model, j);
    }
  }

  lemma BlockedIsUnwanted(c: Crypto, db: Db, chunks: Batch, model: string, k: Key)
    requires Wanted(c, chunks, Documents(chunks), BlockingHashes(c, db.table, chunks), k.0)
    requires OneKind(db.table, chunks, k.0)
    requires Distinct(Documents(chunks))
    ensures var mid := Synced(c, db, chunks, model).0.table; !Blocked(mid, k, BlockingHashes(c, mid, chunks))
  {
    var mid, before := Synced(c, db, chunks, model).0.table, BlockingHashes(c, db.table, chunks);
    if k in mid {
      if HostOnly(db.table, chunks, k.0) {
        SyncGroupsRows(c, chunks, db, Documents(chunks), before, model, k);
        var i := k.1;
        assert k == (k.0, i);
        if (k.0, i) in db.table && mid[k] == db.table[k] {
          assert !IsFallbackRow(db.table[(k.0, i)]);
        } else {
          var x :| x in Group(chunks, k.0) && RowFrom(c, mid[k], x, model);
        }
      } else {
        var x := SyncGroupsDigests(c, chunks, db, Documents(chunks), before, model, k);
        BlockingOnlyShrinks(c, db, chunks, model);
        assert !SharesHash(c, Group(chunks, k.0), before);
      }
    }
  }

  // ---------------------------------------------------------------- one run

  /** Everything the syncing pass of a run establishes, with the digests it blocked on. */
  lemma SyncedEffect(c: Crypto, db: Db, chunks: Batch, kind: DocId -> bool, model: string)
    requires WellFormed(chunks, kind) && Kinded(db.table, kind)
    ensures var mid := Synced(c, db, chunks, model).0;
            var blocking := BlockingHashes(c, db.table, chunks);
            && Kinded(mid.table, kind)
            && WantedUpToDate(c, mid.table, chunks, Documents(chunks), blocking, model)
            && (forall k: Key | !Wanted(c, chunks, Documents(chunks), blocking, k.0) :: SameRow(db.table, mid.table, k))
            && BlockingHashes(c, mid.table, chunks) == FinalHashes(c, db.table, chunks, kind)
            && FinalHashes(c, db.table, chunks, kind) <= blocking
  {
    KeysAreDistinct(chunks, ByDocument);
    var blocking := BlockingHashes(c, db.table, chunks);
    SyncGroupsEffect(c, chunks, kind, db, Documents(chunks), blocking, model);
    var mid := Synced(c, db, chunks, model).0;
    forall d | d in Documents(chunks) && !kind(d)
      ensures UpToDate(c, mid.table, chunks, d, model)
    {
      GroupFacts(chunks, kind, d);
      assert Wanted(c, chunks, Documents(chunks), blocking, d);
    }
    HostHashesSplit(c, mid.table, chunks, kind, model);
    OutsideHashesFrame(db.table, mid.table, chunks, kind);
    forall h | h in OutsideHashes(db.table, chunks, kind)
      ensures h in HostHashes(db.table)
    {
      var k :| k in db.table && db.table[k].digest.Some? && !kind(k.0) && k.0 !in Documents(chunks)
               && db.table[k].digest.value == h;
      HostRowIn(db.table, k);
    }
  }

  lemma WantedSurvives(c: Crypto, db: Db, chunks: Batch, kind: DocId -> bool, model: string, d: DocId)
    requires WellFormed(chunks, kind) && Kinded(db.table, kind)
    requires Wanted(c, chunks, Documents(chunks), BlockingHashes(c, db.table, chunks), d)
    ensures d !in Doomed(Synced(c, db, chunks, model).0.table, FinalHashes(c, db.table, chunks, kind))
  {
    var mid := Synced(c, db, chunks, model).0;
    var final := FinalHashes(c, db.table, chunks, kind);
    SyncedEffect(c, db, chunks, kind, model);
    DoomedMeaning(mid.table, final, d);
    if k: Key :| Blocked(mid.table, k, final) && k.0 == d {
      var x := StoredDigest(c, mid.table, chunks, kind, k, model);
      GroupFacts(chunks, kind, d);
      assert SharesHash(c, Group(chunks, d), BlockingHashes(c, db.table, chunks));
    }
  }

  /** Documents that a run does not sync keep their rows or, sharing a final host digest, lose all of them. */
  lemma UnwantedDoomed(c: Crypto, db: Db, chunks: Batch, kind: DocId -> bool, model: string, d: DocId)
    requires WellFormed(chunks, kind) && Kinded(db.table, kind)
    requires !Wanted(c, chunks, Documents(chunks), BlockingHashes(c, db.table, chunks), d)
    ensures var final := FinalHashes(c, db.table, chunks, kind);
            d in Doomed(Synced(c, db, chunks, model).0.table, final) <==> d in Doomed(db.table, final)
  {
    var mid := Synced(c, db, chunks, model).0;
    var final := FinalHashes(c, db.table, chunks, kind);
    SyncedEffect(c, db, chunks, kind, model);
    DoomedMeaning(mid.table, final, d);
    DoomedMeaning(db.table, final, d);
    assert forall k: Key | k.0 == d :: SameRow(db.table, mid.table, k);
    assert forall k: Key | k.0 == d :: Blocked(mid.table, k, final) <==> Blocked(db.table, k, final);
  }

  ghost predicate NoBlockedRow(t: Table, hostHashes: set<Digest>) {
    forall k: Key :: !Blocked(t, k, hostHashes)
  }

  lemma CleanupEffect(db: Db, kind: DocId -> bool, hostHashes: set<Digest>)
    requires Kinded(db.table, kind)
    ensures var after := Cleanup(db, hostHashes);
            && Kinded(after.table, kind)
            && NoBlockedRow(after.table, hostHashes)
            && (forall k: Key | !kind(k.0) :: SameRow(db.table, after.table, k))
            && (forall k: Key | k.0 !in Doomed(db.table, hostHashes) :: SameRow(db.table, after.table, k))
            && (forall k: Key | k.0 in Doomed(db.table, hostHashes) :: k !in after.table)
  {
    var after := Cleanup(db, hostHashes);
    forall k: Key
      ensures !Blocked(after.table, k, hostHashes)
    {
      DoomedMeaning(db.table, hostHashes, k.0);
      if Blocked(after.table, k, hostHashes) {
        assert Blocked(db.table, k, hostHashes);
      }
    }
    forall k: Key | !kind(k.0)
      ensures SameRow(db.table, after.table, k)
    {
      HostNeverDoomed(db.table, kind, hostHashes, k.0);
    }
  }

  /**
   What one import does. The rows of the documents it synced are the batch's; every other
   document keeps its rows, unless it is a fallback sharing a final host digest, which goes.
  */
  lemma RunEffect(c: Crypto, db: Db, chunks: Batch, kind: DocId -> bool, model: string)
    requires WellFormed(chunks, kind) && Kinded(db.table, kind)
    ensures var after := Run(c, db, chunks, model).0;
            var blocking := BlockingHashes(c, db.table, chunks);
            var final := FinalHashes(c, db.table, chunks, kind);
            && Kinded(after.table, kind)
            && BlockingHashes(c, after.table, chunks) == final
            && FinalHashes(c, after.table, chunks, kind) == final
            && NoBlockedRow(after.table, final)
            && WantedUpToDate(c, after.table, chunks, Documents(chunks), blocking, model)
            && (forall k: Key | !Wanted(c, chunks, Documents(chunks), blocking, k.0) ::
                  if k.0 in Doomed(db.table, final) then k !in after.table else SameRow(db.table, after.table, k))
  {
    var blocking := BlockingHashes(c, db.table, chunks);
    var final := FinalHashes(c, db.table, chunks, kind);
    var mid := Synced(c, db, chunks, model).0;
    var after := Run(c, db, chunks, model).0;
    SyncedEffect(c, db, chunks, kind, model);
    CleanupEffect(mid, kind, final);
    assert after == Cleanup(mid, final);
    forall d | Wanted(c, chunks, Documents(chunks), blocking, d)
      ensures UpToDate(c, after.table, chunks, d, model)
    {
      WantedSurvives(c, db, chunks, kind, model, d);
      UpToDateFrame(c, mid.table, after.table, chunks, d, model);
    }
    forall k: Key | !Wanted(c, chunks, Documents(chunks), blocking, k.0)
      ensures if k.0 in Doomed(db.table, final) then k !in after.table else SameRow(db.table, after.table, k)
    {
      UnwantedDoomed(c, db, chunks, kind, model, k.0);
    }
    forall d | d in Documents(chunks) && !kind(d)
      ensures UpToDate(c, after.table, chunks, d, model)
    {
      GroupFacts(chunks, kind, d);
      assert Wanted(c, chunks, Documents(chunks), blocking, d);
    }
    HostHashesSplit(c, after.table, chunks, kind, model);
    OutsideHashesFrame(db.table, after.table, chunks, kind);
  }

  // ---------------------------------------------------------------- convergence

  /** Nothing in this table is out of date for the batch, and no fallback is due for removal. */
  ghost predicate Settled(c: Crypto, t: Table, chunks: Batch, model: string) {
    && WantedUpToDate(c, t, chunks, Documents(chunks), BlockingHashes(c, t, chunks), model)
    && NoBlockedRow(t, BlockingHashes(c, t, chunks))
  }

  /** An import issues no write exactly when the table is settled, and then it changes nothing. */
  lemma QuietIffSettled(c: Crypto, db: Db, chunks: Batch, kind: DocId -> bool, model: string)
    requires WellFormed(chunks, kind) && Kinded(db.table, kind)
    ensures var after := Run(c, db, chunks, model).0;
            && after.writes >= db.writes
            && (after.writes == db.writes <==> Settled(c, db.table, chunks, model))
            && (after.writes == db.writes ==> after == db)
  {
    KeysAreDistinct(chunks, ByDocument);
    var blocking := BlockingHashes(c, db.table, chunks);
    SyncGroupsEffect(c, chunks, kind, db, Documents(chunks), blocking, model);
    var mid := Synced(c, db, chunks, model).0;
    if mid.writes == db.writes {
      CleanupQuietIff(db, blocking);
    }
  }

  lemma CleanupQuietIff(db: Db, hostHashes: set<Digest>)
    ensures Cleanup(db, hostHashes).writes == db.writes <==> NoBlockedRow(db.table, hostHashes)
    ensures NoBlockedRow(db.table, hostHashes) ==> Cleanup(db, hostHashes) == db
  {
    var ds := Doomed(db.table, hostHashes);
    if NoBlockedRow(db.table, hostHashes) {
      forall d
        ensures d !in ds
      {
        DoomedMeaning(db.table, hostHashes, d);
      }
      assert ds == {};
      assert DeleteAll(db.table, ds) == db.table;
    } else {
      var k: Key :| Blocked(db.table, k, hostHashes);
      DoomedMeaning(db.table, hostHashes, k.0);
      assert ds != {} && |ds| != 0;
    }
  }

  /** After two imports of the same batch the table is settled: the third writes nothing. */
  lemma TwoRunsSettle(c: Crypto, db: Db, chunks: Batch, kind: DocId -> bool, model: string)
    requires WellFormed(chunks, kind) && Kinded(db.table, kind)
    ensures var second := Run(c, Run(c, db, chunks, model).0, chunks, model).0;
            && Settled(c, second.table, chunks, model)
            && Run(c, second, chunks, model).0 == second
  {
    var first := Run(c, db, chunks, model).0;
    var second := Run(c, first, chunks, model).0;
    RunEffect(c, db, chunks, kind, model);
    RunEffect(c, first, chunks, kind, model);
    assert BlockingHashes(c, second.table, chunks) == BlockingHashes(c, first.table, chunks);
    QuietIffSettled(c, second, chunks, kind, model);
  }

  /** A fallback group that only host digests on their way out are blocking. */
  ghost predicate Released(c: Crypto, t: Table, chunks: Batch, kind: DocId -> bool, d: DocId) {
    && d in Documents(chunks) && kind(d)
    && SharesHash(c, Group(chunks, d), BlockingHashes(c, t, chunks))
    && !SharesHash(c, Group(chunks, d), FinalHashes(c, t, chunks, kind))
  }

  /** A released group that the cleanup removes was not up to date. */
  lemma DoomedIsOutdated(c: Crypto, t: Table, chunks: Batch, kind: DocId -> bool, model: string, d: DocId)
    requires WellFormed(chunks, kind) && Kinded(t, kind) && Released(c, t, chunks, kind, d)
    requires d in Doomed(t, FinalHashes(c, t, chunks, kind))
    ensures !UpToDate(c, t, chunks, d, model)
  {
    var final := FinalHashes(c, t, chunks, kind);
    DoomedMeaning(t, final, d);
    if UpToDate(c, t, chunks, d, model) {
      var k: Key :| Blocked(t, k, final) && k.0 == d;
      var x := StoredDigest(c, t, chunks, kind, k, model);
      assert SharesHash(c, Group(chunks, d), final);
    }
  }

  lemma EmptyIsOutdated(c: Crypto, t: Table, chunks: Batch, kind: DocId -> bool, model: string, d: DocId)
    requires WellFormed(chunks, kind) && d in Documents(chunks) && forall i: int :: (d, i) !in t
    ensures !UpToDate(c, t, chunks, d, model)
  {
    GroupFacts(chunks, kind, d);
    assert (d, 0) !in t;
  }

  lemma ReleasedKeepsRows(c: Crypto, db: Db, chunks: Batch, kind: DocId -> bool, model: string, d: DocId)
    requires WellFormed(chunks, kind) && Kinded(db.table, kind) && Released(c, db.table, chunks, kind, d)
    ensures UpToDate(c, Run(c, db, chunks, model).0.table, chunks, d, model)
            <==> UpToDate(c, db.table, chunks, d, model)
  {
    var after := Run(c, db, chunks, model).0;
    RunEffect(c, db, chunks, kind, model);
    GroupFacts(chunks, kind, d);
    if d in Doomed(db.table, FinalHashes(c, db.table, chunks, kind)) {
      DoomedIsOutdated(c, db.table, chunks, kind, model, d);
      EmptyIsOutdated(c, after.table, chunks, kind, model, d);
    } else {
      UpToDateFrame(c, db.table, after.table, chunks, d, model);
    }
  }

  /** One import settles the table exactly when every group it releases was up to date before it. */
  lemma OneRunSettlesIff(c: Crypto, db: Db, chunks: Batch, kind: DocId -> bool, model: string)
    requires WellFormed(chunks, kind) && Kinded(db.table, kind)
    ensures Settled(c, Run(c, db, chunks, model).0.table, chunks, model) <==>
            forall d | Released(c, db.table, chunks, kind, d) :: UpToDate(c, db.table, chunks, d, model)
  {
    var after := Run(c, db, chunks, model).0;
    var blocking := BlockingHashes(c, db.table, chunks);
    var final := FinalHashes(c, db.table, chunks, kind);
    RunEffect(c, db, chunks, kind, model);
    SyncedEffect(c, db, chunks, kind, model);
    forall d | Released(c, db.table, chunks, kind, d)
      ensures Wanted(c, chunks, Documents(chunks), final, d)
      ensures UpToDate(c, after.table, chunks, d, model) <==> UpToDate(c, db.table, chunks, d, model)
    {
      GroupFacts(chunks, kind, d);
      ReleasedKeepsRows(c, db, chunks, kind, model, d);
    }
    forall d | Wanted(c, chunks, Documents(chunks), final, d) && !Released(c, db.table, chunks, kind, d)
      ensures UpToDate(c, after.table, chunks, d, model)
    {
      GroupFacts(chunks, kind, d);
      assert Wanted(c, chunks, Documents(chunks), blocking, d);
    }
  }

  /** In particular one import suffices when it drops no host digest. */
  lemma OneRunSettlesWhenNoHashDropped(c: Crypto, db: Db, chunks: Batch, kind: DocId -> bool, model: string)
    requires WellFormed(chunks, kind) && Kinded(db.table, kind)
    requires HostHashes(db.table) <= HostHashes(Run(c, db, chunks, model).0.table)
    ensures Settled(c, Run(c, db, chunks, model).0.table, chunks, model)
  {
    RunEffect(c, db, chunks, kind, model);
    SyncedEffect(c, db, chunks, kind, model);
    assert BlockingHashes(c, db.table, chunks) == FinalHashes(c, db.table, chunks, kind);
    OneRunSettlesIff(c, db, chunks, kind, model);
  }

  lemma PairGroups(x: MappedChunk, y: MappedChunk)
    ensures forall d ::
              Group([x, y], d) == (if x.documentId == d then [x] else []) + (if y.documentId == d then [y] else [])
  {
    forall d
      ensures Group([x, y], d) == (if x.documentId == d then [x] else []) + (if y.documentId == d then [y] else [])
    {
      assert [x, y] == [] + [x] + [y];
      BucketStep([], x, ByDocument, d);
      BucketStep([] + [x], y, ByDocument, d);
    }
  }

  /** One import is not always enough: replacing a host document can release a fallback it blocked. */
  lemma OneRunMayNotSettle()
    returns (c: Crypto, db: Db, chunks: Batch, kind: DocId -> bool, model: string)
    ensures WellFormed(chunks, kind) && Kinded(db.table, kind)
    ensures var first := Run(c, db, chunks, model).0;
            Run(c, first, chunks, model).0.writes > first.writes
  {
    c := Crypto(s => s, s => DocId(s));
    kind := (d: DocId) => IsFallbackSource(d.hex);
    model := "m";
    var host, fallback := DocId("a"), DocId("langflow:f");
    var newHost := MappedChunk(host, 0, "a", "new", "a", map[], []);
    var blocked := MappedChunk(fallback, 0, "f", "old", "langflow:f", map[], []);
    chunks := [newHost, blocked];
    var row := Row("a", "old", Some("a"), map[], Some("old"), Some(model), []);
    db := Db(map[(host, 0) := row], 0);
    PairGroups(newHost, blocked);
    var final := FinalHashes(c, db.table, chunks, kind);
    DocumentOf(chunks, newHost);
    DocumentOf(chunks, blocked);
    HostRowIn(db.table, (host, 0));
    assert "old" in BlockingHashes(c, db.table, chunks);
    assert blocked in Group(chunks, fallback) && c.sha256(blocked.content) == "old";
    assert SharesHash(c, Group(chunks, fallback), BlockingHashes(c, db.table, chunks));
    assert "old" !in final;
    assert Released(c, db.table, chunks, kind, fallback);
    assert !UpToDate(c, db.table, chunks, fallback, model) by {
      GroupFacts(chunks, kind, fallback);
      assert (fallback, 0) !in db.table;
    }
    var first := Run(c, db, chunks, model).0;
    RunEffect(c, db, chunks, kind, model);
    OneRunSettlesIff(c, db, chunks, kind, model);
    QuietIffSettled(c, first, chunks, kind, model);
  }

  // ---------------------------------------------------------------- where well-formed batches come from

  /** The kind that an id carries when ids are derived from canonical source names. */
  ghost function KindOf(c: Crypto): DocId -> bool {
    d => exists s: string :: Canonical(s) && IsFallbackSource(s) && c.uuid5(s) == d
  }

  lemma KindOfName(c: Crypto, s: string)
    requires InjectiveOnNames(c) && Canonical(s)
    ensures KindOf(c)(c.uuid5(s)) <==> IsFallbackSource(s)
  {}

  /** A successful remap to canonical host paths is always fit to be imported. */
  lemma RemappedBatchIsWellFormed(c: Crypto, rows: seq<LangflowRow>, overrides: map<string, string>)
    requires InjectiveOnNames(c)
    requires forall row | row in rows :: Text.Trimmed("langflow:" + row.id)
    requires forall v | v in overrides.Values :: Canonical(v)
    ensures RemapSources(c, MapLangflowRows(c, rows), overrides).Ok?
    ensures WellFormed(RemapSources(c, MapLangflowRows(c, rows), overrides).value, KindOf(c))
  {
    MappedSourcesAreCanonical(c, rows);
    CanonicalMeansNumbered(c, Drafted(c, rows));
    RemapNumbersDocuments(c, MapLangflowRows(c, rows), overrides);
    var batch := RemapSources(c, MapLangflowRows(c, rows), overrides).value;
    forall x | x in batch
      ensures IsFallbackSource(x.source) <==> KindOf(c)(x.documentId)
    {
      Text.StripOfTrimmed(x.source);
      KindOfName(c, x.source);
    }
  }

  /** Rows stored under the id of their own canonical source. */
  ghost predicate CanonicalTable(c: Crypto, t: Table) {
    forall k | k in t :: t[k].source.Some? && Canonical(t[k].source.value) && k.0 == c.uuid5(t[k].source.value)
  }

  /** Such rows satisfy the table invariant. */
  lemma CanonicalTableIsKinded(c: Crypto, t: Table)
    requires InjectiveOnNames(c) && CanonicalTable(c, t)
    ensures Kinded(t, KindOf(c))
  {}

  /**
   From Langflow rows to a settled table: mapping and remapping to canonical host paths succeeds,
   and importing the result twice leaves nothing for a third import to write.
  */
  lemma ImportingTwiceSettles(c: Crypto, db: Db, rows: seq<LangflowRow>, overrides: map<string, string>, model: string)
    requires InjectiveOnNames(c) && CanonicalTable(c, db.table)
    requires forall row | row in rows :: Text.Trimmed("langflow:" + row.id)
    requires forall v | v in overrides.Values :: Canonical(v)
    ensures RemapSources(c, MapLangflowRows(c, rows), overrides).Ok?
    ensures var batch := RemapSources(c, MapLangflowRows(c, rows), overrides).value;
            var second := Run(c, Run(c, db, batch, model).0, batch, model).0;
            Run(c, second, batch, model).0 == second
  {
    RemappedBatchIsWellFormed(c, rows, overrides);
    CanonicalTableIsKinded(c, db.table);
    TwoRunsSettle(c, db, RemapSources(c, MapLangflowRows(c, rows), overrides).value, KindOf(c), model);
  }

  // ---------------------------------------------------------------- the loops

  function Hits(rows: seq<(DocId, Digest)>, hostHashes: set<Digest>): seq<(DocId, Digest)> {
    if rows == [] then []
    else
      var n := |rows| - 1;
      Hits(rows[..n], hostHashes) + if rows[n].1 in hostHashes then [rows[n]] else []
  }

  function IdOfPair(p: (DocId, Digest)): DocId {
    p.0
  }

  lemma {:induction false} HitsMeaning(rows: seq<(DocId, Digest)>, hostHashes: set<Digest>)
    ensures forall p :: p in Hits(rows, hostHashes) <==> p in rows && p.1 in hostHashes
  {
    if rows != [] {
      var n := |rows| - 1;
      assert rows == rows[..n] + [rows[n]];
      HitsMeaning(rows[..n], hostHashes);
    }
  }

  lemma {:induction false} KeysComeFromItems(xs: seq<(DocId, Digest)>, d: DocId)
    requires d in Keys(xs, IdOfPair)
    ensures exists p :: p in xs && p.0 == d
  {
    KeysAreDistinct(xs, IdOfPair);
    var bucket := Bucket(xs, IdOfPair, d);
    assert bucket[0] in bucket && IdOfPair(bucket[0]) == d;
  }

  /** The fallback documents with a digest in `hostHashes`, in the order of their first hit. */
  function HitIds(rows: seq<(DocId, Digest)>, hostHashes: set<Digest>): seq<DocId> {
    Keys(Hits(rows, hostHashes), IdOfPair)
  }

  lemma HitIdsStep(rows: seq<(DocId, Digest)>, hostHashes: set<Digest>, i: nat)
    requires i < |rows|
    ensures var ids := HitIds(rows[..i], hostHashes);
            HitIds(rows[..i + 1], hostHashes)
            == if rows[i].1 in hostHashes && rows[i].0 !in ids then ids + [rows[i].0] else ids
  {
    assert rows[..i + 1][..i] == rows[..i];
    var before := Hits(rows[..i], hostHashes);
    assert Hits(rows[..i + 1], hostHashes) == if rows[i].1 in hostHashes then before + [rows[i]] else before;
    KeysStep(before, rows[i], IdOfPair);
    assert IdOfPair(rows[i]) == rows[i].0;
  }

  method FallbackIdsSharingHashes(rows: seq<(DocId, Digest)>, hostHashes: set<Digest>) returns (ids: seq<DocId>)
    ensures ids == HitIds(rows, hostHashes)
  {
    var seen: set<DocId> := {};
    ids := [];
    for i := 0 to |rows|
      invariant ids == HitIds(rows[..i], hostHashes)
      invariant forall d :: d in seen <==> d in ids
    {
      HitIdsStep(rows, hostHashes, i);
      if rows[i].1 in hostHashes && rows[i].0 !in seen {
        seen := seen + {rows[i].0};
        ids := ids + [rows[i].0];
      }
    }
    assert rows[..|rows|] == rows;
  }

  lemma DoomedAsList(t: Table, rows: seq<(DocId, Digest)>, hostHashes: set<Digest>, ids: seq<DocId>)
    requires forall p :: p in rows <==> p in FallbackFingerprints(t)
    requires ids == HitIds(rows, hostHashes)
    ensures Distinct(ids) && forall d :: d in ids <==> d in Doomed(t, hostHashes)
  {
    HitsMeaning(rows, hostHashes);
    KeysAreDistinct(Hits(rows, hostHashes), IdOfPair);
    forall d
      ensures d in ids <==> d in Doomed(t, hostHashes)
    {
      if d in ids {
        KeysComeFromItems(Hits(rows, hostHashes), d);
      }
      if d in Doomed(t, hostHashes) {
        var p :| p in FallbackFingerprints(t) && p.1 in hostHashes && p.0 == d;
        assert p in Hits(rows, hostHashes) && IdOfPair(p) == d;
      }
    }
  }

  lemma DeleteOneMore(t: Table, ids: seq<DocId>, d: DocId)
    ensures DeleteAll(t, Members(ids + [d])) == DeleteDocument(DeleteAll(t, Members(ids)), d)
  {
    assert Members(ids + [d]) == Members(ids) + {d};
  }

  lemma DeleteNone(t: Table)
    ensures DeleteAll(t, Members([])) == t
  {}

  /** The cleanup loop: one delete per doomed document. */
  method DeleteDoomed(repository: VectorRepository, hostHashes: set<Digest>)
    modifies repository
    ensures repository.Contents() == Cleanup(old(repository.Contents()), hostHashes)
  {
    var rows := repository.ListFallbackFingerprints();
    var ids := FallbackIdsSharingHashes(rows, hostHashes);
    DoomedAsList(repository.table, rows, hostHashes, ids);
    DeleteNone(repository.table);
    for i := 0 to |ids|
      invariant repository.table == DeleteAll(old(repository.table), Members(ids[..i]))
      invariant repository.writes == old(repository.writes) + i
    {
      DeleteOneMore(old(repository.table), ids[..i], ids[i]);
      repository.DeleteByDocumentId(ids[i]);
      assert ids[..i + 1] == ids[..i] + [ids[i]];
    }
    assert ids[..|ids|] == ids;
    MembersSize(ids);
    assert Members(ids) == Doomed(old(repository.table), hostHashes);
  }

  lemma GroupSyncs(c: Crypto, db: Db, chunks: Batch, d: DocId, model: string)
    requires d in Documents(chunks)
    ensures SingleDocumentId(Drafts(chunks, d)) == Ok(d)
    ensures Sync(c, db, Drafts(chunks, d), model).Ok?
    ensures Sync(c, db, Drafts(chunks, d), model).value.0
            == SyncOrdered(c, db, d, Sorted(Drafts(chunks, d), ByIndex), model).0
  {
    KeysAreDistinct(chunks, ByDocument);
    var group := Group(chunks, d);
    forall y | y in Drafts(chunks, d)
      ensures y.documentId == d
    {
      var i :| 0 <= i < |group| && AsDraft(group[i]) == y;
      assert group[i] in group;
    }
    OneDocumentId(Drafts(chunks, d), d);
  }

  /** One pass through the loop body of `sync_mapped_chunks`. */
  method SyncOneGroup(repository: VectorRepository, c: Crypto, ghost chunks: Batch, ghost d: DocId,
                      group: seq<MappedChunk>, hostHashes: set<Digest>, model: string)
    returns (count: nat)
    requires d in Documents(chunks) && group == Group(chunks, d)
    modifies repository
    ensures (repository.Contents(), count) == SyncGroup(c, chunks, old(repository.Contents()), d, hostHashes, model)
  {
    if !ShouldSyncGroup(c, group, hostHashes) {
      return 0;
    }
    GroupSyncs(c, repository.Contents(), chunks, d, model);
    var outcome := SyncDocument(repository, c, Map(AsDraft, group), model);
    count := |group|;
  }

  /** The first loop of `sync_mapped_chunks`. */
  method SyncAllGroups(repository: VectorRepository, c: Crypto, ghost chunks: Batch, order: seq<DocId>,
                       grouped: map<DocId, seq<MappedChunk>>, hostHashes: set<Digest>, model: string)
    returns (synced: nat)
    requires order == Documents(chunks)
    requires forall d | d in order :: d in grouped && grouped[d] == Group(chunks, d)
    modifies repository
    ensures repository.Contents() == SyncGroups(c, chunks, old(repository.Contents()), order, hostHashes, model).0
    ensures synced == SyncGroups(c, chunks, old(repository.Contents()), order, hostHashes, model).1
  {
    synced := 0;
    ghost var start := repository.Contents();
    for i := 0 to |order|
      invariant repository.Contents() == SyncGroups(c, chunks, start, order[..i], hostHashes, model).0
      invariant synced == SyncGroups(c, chunks, start, order[..i], hostHashes, model).1
    {
      assert order[..i + 1][..i] == order[..i];
      var count := SyncOneGroup(repository, c, chunks, order[i], grouped[order[i]], hostHashes, model);
      synced := synced + count;
    }
    assert order[..|order|] == order;
  }

  /** `sync_mapped_chunks`. */
  method SyncMappedChunks(repository: VectorRepository, c: Crypto, chunks: Batch, model: string)
    returns (synced: nat)
    modifies repository
    ensures (repository.Contents(), synced) == Run(c, old(repository.Contents()), chunks, model)
  {
    var order, grouped := GroupBy(chunks, ByDocument);
    var incoming := IncomingHostHashes(c, chunks);
    var stored := repository.ListHostPathHashes();
    synced := SyncAllGroups(repository, c, chunks, order, grouped, stored + incoming, model);
    stored := repository.ListHostPathHashes();
    DeleteDoomed(repository, stored + incoming);
  }
}
