/**
 What an import does, in terms of rows and chunks alone: which documents it syncs, what their rows
 then hold, which fallbacks it removes, and what it counts.
*/
module ImportMeaning {
  import opened Wrappers
  import opened DocumentTable
  import opened DocumentSync
  import opened LangflowMapping
  import opened Grouping
  import opened StableSort
  import opened Reconciliation

  predicate FromLangflow(source: string) {
    |source| >= 9 && source[..9] == "langflow:"
  }

  /** The row belongs to a host document: it has no source, or one that is not Langflow's. */
  predicate HostRow(row: Row) {
    row.source.None? || !FromLangflow(row.source.value)
  }

  /** A stored host row or an incoming host chunk has this digest. */
  ghost predicate HostDigest(c: Crypto, t: Table, chunks: Batch, h: Digest) {
    || (exists k :: k in t && HostRow(t[k]) && t[k].digest == Some(h))
    || (exists x :: x in chunks && !FromLangflow(x.source) && c.sha256(x.content) == h)
  }

  /** The document's first chunk in the batch. */
  ghost predicate FirstChunk(chunks: Batch, d: DocId, j: int) {
    0 <= j < |chunks| && chunks[j].documentId == d && forall i | 0 <= i < j :: chunks[i].documentId != d
  }

  ghost predicate LedByFallback(chunks: Batch, d: DocId) {
    exists j :: FirstChunk(chunks, d, j) && FromLangflow(chunks[j].source)
  }

  /** One of the document's chunks has the digest of a host. */
  ghost predicate KnownToHosts(c: Crypto, t: Table, chunks: Batch, d: DocId) {
    exists x :: x in chunks && x.documentId == d && HostDigest(c, t, chunks, c.sha256(x.content))
  }

  /**
   The import syncs the document: the batch has chunks of it, and if the first of them is a
   fallback's then none has the digest of a host.
  */
  ghost predicate Syncs(c: Crypto, t: Table, chunks: Batch, d: DocId) {
    && (exists x :: x in chunks && x.documentId == d)
    && (LedByFallback(chunks, d) ==> !KnownToHosts(c, t, chunks, d))
  }

  /** The row has the chunk's own fields, its digest and this model. */
  ghost predicate HoldsChunk(c: Crypto, row: Row, x: MappedChunk, model: string) {
    && row.title == x.title && row.content == x.content && row.source == Some(x.source)
    && row.embedding == x.embedding
    && HoldsMetadata(row.metadata, Some(x.metadata), Some(x.source), x.chunkIndex)
    && row.digest == Some(c.sha256(x.content)) && row.model == Some(model)
  }

  /** No later chunk has the id and the index of chunk `j`. */
  ghost predicate LastOfKey(chunks: Batch, j: int) {
    && 0 <= j < |chunks|
    && forall k | j < k < |chunks| ::
         chunks[k].documentId != chunks[j].documentId || chunks[k].chunkIndex != chunks[j].chunkIndex
  }

  /** The rows of `d` are the batch's: one per index, holding the last chunk of that index. */
  ghost predicate HoldsChunks(c: Crypto, t: Table, chunks: Batch, d: DocId, model: string) {
    && (forall j | 0 <= j < |chunks| && chunks[j].documentId == d && LastOfKey(chunks, j) ::
          (d, chunks[j].chunkIndex) in t && HoldsChunk(c, t[(d, chunks[j].chunkIndex)], chunks[j], model))
    && (forall i: int | (d, i) in t :: exists x :: x in chunks && x.documentId == d && x.chunkIndex == i)
  }

  /** The document has a fallback row with the digest of a host. */
  ghost predicate Redundant(c: Crypto, t: Table, chunks: Batch, d: DocId) {
    exists i: int :: (d, i) in t && !HostRow(t[(d, i)]) && t[(d, i)].digest.Some?
                     && HostDigest(c, t, chunks, t[(d, i)].digest.value)
  }

  // ---------------------------------------------------------------- the groups and their digests

  lemma {:induction false} GroupIsFiltered(chunks: Batch, d: DocId)
    ensures forall j | 0 <= j < |chunks| && chunks[j].documentId == d :: chunks[j] in Group(chunks, d)
    ensures Group(chunks, d) != [] ==> exists j :: FirstChunk(chunks, d, j) && chunks[j] == Group(chunks, d)[0]
    ensures Group(chunks, d) == [] ==> forall j | 0 <= j < |chunks| :: chunks[j].documentId != d
  {
    if chunks != [] {
      var n := |chunks| - 1;
      GroupIsFiltered(chunks[..n], d);
      assert chunks == chunks[..n] + [chunks[n]];
      assert forall j | 0 <= j < n :: chunks[..n][j] == chunks[j];
      if Group(chunks[..n], d) != [] {
        var j :| FirstChunk(chunks[..n], d, j) && chunks[..n][j] == Group(chunks[..n], d)[0];
        assert FirstChunk(chunks, d, j);
      } else if chunks[n].documentId == d {
        assert FirstChunk(chunks, d, n);
      }
    }
  }

  lemma FirstChunkIsUnique(chunks: Batch, d: DocId, i: int, j: int)
    requires FirstChunk(chunks, d, i) && FirstChunk(chunks, d, j)
    ensures i == j
  {}

  lemma FallbackIsFromLangflow(source: string)
    ensures IsFallbackSource(source) <==> FromLangflow(source)
  {}

  lemma BlockingIsHostDigest(c: Crypto, t: Table, chunks: Batch, h: Digest)
    ensures h in BlockingHashes(c, t, chunks) <==> HostDigest(c, t, chunks, h)
  {
    forall k | k in t
      ensures IsFallbackRow(t[k]) <==> !HostRow(t[k])
    {
    }
    if h in HostHashes(t) {
      var k :| k in t && t[k].digest.Some? && !IsFallbackRow(t[k]) && t[k].digest.value == h;
    }
    if k :| k in t && HostRow(t[k]) && t[k].digest == Some(h) {
      HostRowIn(t, k);
    }
    if h in IncomingHostHashes(c, chunks) {
      var x :| x in chunks && !IsFallbackSource(x.source) && c.sha256(x.content) == h;
      FallbackIsFromLangflow(x.source);
    }
    if x :| x in chunks && !FromLangflow(x.source) && c.sha256(x.content) == h {
      FallbackIsFromLangflow(x.source);
    }
  }

  lemma GroupMembers(chunks: Batch, d: DocId)
    ensures forall x :: x in Group(chunks, d) <==> x in chunks && x.documentId == d
  {}

  lemma SharesIsHostDigest(c: Crypto, t: Table, chunks: Batch, d: DocId)
    ensures SharesHash(c, Group(chunks, d), BlockingHashes(c, t, chunks)) <==> KnownToHosts(c, t, chunks, d)
  {
    GroupMembers(chunks, d);
    forall x: MappedChunk
      ensures c.sha256(x.content) in BlockingHashes(c, t, chunks) <==> HostDigest(c, t, chunks, c.sha256(x.content))
    {
      BlockingIsHostDigest(c, t, chunks, c.sha256(x.content));
    }
  }

  lemma GroupIsLed(chunks: Batch, d: DocId)
    requires Group(chunks, d) != []
    ensures IsFallbackSource(Group(chunks, d)[0].source) <==> LedByFallback(chunks, d)
  {
    GroupIsFiltered(chunks, d);
    var j :| FirstChunk(chunks, d, j) && chunks[j] == Group(chunks, d)[0];
    FallbackIsFromLangflow(chunks[j].source);
    forall i | FirstChunk(chunks, d, i)
      ensures i == j
    {
      FirstChunkIsUnique(chunks, d, i, j);
    }
  }

  lemma WantedIsSynced(c: Crypto, t: Table, chunks: Batch, d: DocId)
    ensures Wanted(c, chunks, Documents(chunks), BlockingHashes(c, t, chunks), d) <==> Syncs(c, t, chunks, d)
  {
    GroupMembers(chunks, d);
    SharesIsHostDigest(c, t, chunks, d);
    if Group(chunks, d) != [] {
      GroupIsLed(chunks, d);
      assert Group(chunks, d)[0] in Group(chunks, d);
      DocumentOf(chunks, Group(chunks, d)[0]);
    }
  }

  lemma DoomedIsRedundant(c: Crypto, t: Table, chunks: Batch, d: DocId)
    ensures d in Doomed(t, BlockingHashes(c, t, chunks)) <==> Redundant(c, t, chunks, d)
  {
    var blocking := BlockingHashes(c, t, chunks);
    DoomedMeaning(t, blocking, d);
    if k: Key :| Blocked(t, k, blocking) && k.0 == d {
      var i := k.1;
      assert k == (d, i);
      BlockingIsHostDigest(c, t, chunks, t[(d, i)].digest.value);
    }
    if i: int :| (d, i) in t && !HostRow(t[(d, i)]) && t[(d, i)].digest.Some?
                 && HostDigest(c, t, chunks, t[(d, i)].digest.value) {
      BlockingIsHostDigest(c, t, chunks, t[(d, i)].digest.value);
      assert Blocked(t, (d, i), blocking);
    }
  }

  // ---------------------------------------------------------------- the rows of a replaced document

  /** The position of a group's element in the batch, which keeps the order. */
  lemma {:induction false} GroupPosition(chunks: Batch, d: DocId, j: nat) returns (g: nat)
    requires j < |chunks| && chunks[j].documentId == d
    ensures g < |Group(chunks, d)| && Group(chunks, d)[g] == chunks[j]
    ensures forall h | g < h < |Group(chunks, d)| :: exists k :: j < k < |chunks| && chunks[k] == Group(chunks, d)[h]
  {
    var n := |chunks| - 1;
    assert chunks == chunks[..n] + [chunks[n]];
    var before := Group(chunks[..n], d);
    if j == n {
      g := |before|;
    } else {
      g := GroupPosition(chunks[..n], d, j);
      forall h | g < h < |Group(chunks, d)|
        ensures exists k :: j < k < |chunks| && chunks[k] == Group(chunks, d)[h]
      {
        if h < |before| {
          var k :| j < k < n && chunks[..n][k] == before[h];
          assert chunks[k] == Group(chunks, d)[h];
        } else {
          assert chunks[n] == Group(chunks, d)[h];
        }
      }
    }
  }

  lemma DraftHolds(c: Crypto, row: Row, x: MappedChunk, model: string)
    requires HoldsDraft(c, row, AsDraft(x), model)
    ensures HoldsChunk(c, row, x, model)
  {}

  lemma LastChunkIsLastDraft(chunks: Batch, d: DocId, j: nat) returns (g: nat)
    requires j < |chunks| && chunks[j].documentId == d && LastOfKey(chunks, j)
    ensures LastOfIndex(Drafts(chunks, d), g) && Drafts(chunks, d)[g] == AsDraft(chunks[j])
  {
    var drafts, group := Drafts(chunks, d), Group(chunks, d);
    GroupMembers(chunks, d);
    g := GroupPosition(chunks, d, j);
    forall h | g < h < |drafts|
      ensures drafts[h].chunkIndex != drafts[g].chunkIndex
    {
      assert h < |group| && group[h] in group;
      var k :| j < k < |chunks| && chunks[k] == group[h];
    }
  }

  lemma DraftsAreOneDocument(chunks: Batch, d: DocId)
    requires Group(chunks, d) != []
    ensures OneDocument(Drafts(chunks, d), d)
  {
    var drafts, group := Drafts(chunks, d), Group(chunks, d);
    assert forall i | 0 <= i < |drafts| :: drafts[i] == AsDraft(group[i]) && group[i] in group;
  }

  lemma ReplacedHoldsChunks(c: Crypto, t: Table, chunks: Batch, d: DocId, model: string)
    requires Group(chunks, d) != []
    ensures HoldsChunks(c, Replace(c, t, d, Sorted(Drafts(chunks, d), ByIndex), model), chunks, d, model)
  {
    var u, drafts := Replace(c, t, d, Sorted(Drafts(chunks, d), ByIndex), model), Drafts(chunks, d);
    DraftsAreOneDocument(chunks, d);
    ReplaceStoresDrafts(c, t, d, drafts, model);
    forall j | 0 <= j < |chunks| && chunks[j].documentId == d && LastOfKey(chunks, j)
      ensures (d, chunks[j].chunkIndex) in u && HoldsChunk(c, u[(d, chunks[j].chunkIndex)], chunks[j], model)
    {
      var g := LastChunkIsLastDraft(chunks, d, j);
      DraftHolds(c, u[(d, chunks[j].chunkIndex)], chunks[j], model);
    }
    forall i: int | (d, i) in u
      ensures exists x :: x in chunks && x.documentId == d && x.chunkIndex == i
    {
      var j :| 0 <= j < |drafts| && drafts[j].chunkIndex == i;
      DraftIsChunk(chunks, d, j);
    }
  }

  lemma DraftIsChunk(chunks: Batch, d: DocId, j: nat)
    requires j < |Drafts(chunks, d)|
    ensures exists x :: x in chunks && x.documentId == d && x.chunkIndex == Drafts(chunks, d)[j].chunkIndex
  {
    var x := Group(chunks, d)[j];
    assert x in Group(chunks, d);
  }

  lemma HoldsChunksFrame(c: Crypto, t: Table, u: Table, chunks: Batch, d: DocId, model: string)
    requires HoldsChunks(c, t, chunks, d, model) && forall i: int :: SameRow(t, u, (d, i))
    ensures HoldsChunks(c, u, chunks, d, model)
  {
    forall j | 0 <= j < |chunks| && chunks[j].documentId == d && LastOfKey(chunks, j)
      ensures (d, chunks[j].chunkIndex) in u && HoldsChunk(c, u[(d, chunks[j].chunkIndex)], chunks[j], model)
    {
      assert SameRow(t, u, (d, chunks[j].chunkIndex));
    }
    forall i: int | (d, i) in u
      ensures exists x :: x in chunks && x.documentId == d && x.chunkIndex == i
    {
      assert SameRow(t, u, (d, i));
    }
  }

  /** A synced document that was not stored already is rewritten by its turn, and left alone afterwards. */
  lemma {:induction false} WantedIsRewritten(
    c: Crypto, chunks: Batch, db: Db, ds: seq<DocId>, hostHashes: set<Digest>, model: string, d: DocId)
    requires Distinct(ds) && Wanted(c, chunks, ds, hostHashes, d)
    ensures var after := SyncGroups(c, chunks, db, ds, hostHashes, model).0;
            if Matched(c, db.table, chunks, d, model) then forall i: int :: SameRow(db.table, after.table, (d, i))
            else HoldsChunks(c, after.table, chunks, d, model)
  {
    var n := |ds| - 1;
    assert ds == ds[..n] + [ds[n]];
    var before := SyncGroups(c, chunks, db, ds[..n], hostHashes, model).0;
    if ds[n] == d {
      forall i: int
        ensures SameRow(db.table, before.table, (d, i))
      {
        SyncGroupsFrame(c, chunks, db, ds[..n], hostHashes, model, (d, i));
      }
      MatchFrame(db.table, before.table, d, Digests(c, Sorted(Drafts(chunks, d), ByIndex)), model);
      ReplacedHoldsChunks(c, before.table, chunks, d, model);
    } else {
      WantedIsRewritten(c, chunks, db, ds[..n], hostHashes, model, d);
      SyncGroupFrame(c, chunks, before, ds[n], hostHashes, model);
      var after := SyncGroup(c, chunks, before, ds[n], hostHashes, model).0;
      if !Matched(c, db.table, chunks, d, model) {
        HoldsChunksFrame(c, before.table, after.table, chunks, d, model);
      }
    }
  }

  // ---------------------------------------------------------------- the import

  /** What the syncing pass does to one document. */
  ghost predicate SyncedAsDue(c: Crypto, t: Table, mid: Table, chunks: Batch, d: DocId, model: string) {
    if Syncs(c, t, chunks, d) && !Matched(c, t, chunks, d, model) then HoldsChunks(c, mid, chunks, d, model)
    else forall i: int :: SameRow(t, mid, (d, i))
  }

  lemma {:induction false} UnwantedStays(
    c: Crypto, chunks: Batch, db: Db, ds: seq<DocId>, hostHashes: set<Digest>, model: string, k: Key)
    requires !Wanted(c, chunks, ds, hostHashes, k.0)
    ensures SameRow(db.table, SyncGroups(c, chunks, db, ds, hostHashes, model).0.table, k)
  {
    if ds != [] {
      var n := |ds| - 1;
      assert ds == ds[..n] + [ds[n]];
      UnwantedStays(c, chunks, db, ds[..n], hostHashes, model, k);
      SyncGroupFrame(c, chunks, SyncGroups(c, chunks, db, ds[..n], hostHashes, model).0, ds[n], hostHashes, model);
    }
  }

  /**
   One import of any batch into any table. First every document that is due is synced: its rows are
   rewritten to hold its chunks, field by field, unless its fingerprints were stored already, and no
   other row changes. Then every document with a fallback row that has the digest of a host is
   removed, and no other row changes.
  */
  lemma ImportDoes(c: Crypto, db: Db, chunks: Batch, model: string)
    ensures var mid, after := Synced(c, db, chunks, model).0.table, Run(c, db, chunks, model).0.table;
            && (forall d :: SyncedAsDue(c, db.table, mid, chunks, d, model))
            && (forall k: Key ::
                  if Redundant(c, mid, chunks, k.0) then k !in after else SameRow(mid, after, k))
  {
    var mid := Synced(c, db, chunks, model).0.table;
    var blocking := BlockingHashes(c, db.table, chunks);
    KeysAreDistinct(chunks, ByDocument);
    forall d
      ensures SyncedAsDue(c, db.table, mid, chunks, d, model)
    {
      WantedIsSynced(c, db.table, chunks, d);
      if Syncs(c, db.table, chunks, d) {
        WantedIsRewritten(c, chunks, db, Documents(chunks), blocking, model, d);
      } else {
        forall i: int
          ensures SameRow(db.table, mid, (d, i))
        {
          UnwantedStays(c, chunks, db, Documents(chunks), blocking, model, (d, i));
        }
      }
    }
    forall k: Key
      ensures if Redundant(c, mid, chunks, k.0) then k !in Run(c, db, chunks, model).0.table
              else SameRow(mid, Run(c, db, chunks, model).0.table, k)
    {
      DoomedIsRedundant(c, mid, chunks, k.0);
    }
  }

  // ---------------------------------------------------------------- the count

  /** The positions of the chunks of these documents. */
  ghost function Positions(chunks: Batch, ds: set<DocId>): set<int> {
    set j | 0 <= j < |chunks| && chunks[j].documentId in ds
  }

  lemma {:induction false} GroupCounts(chunks: Batch, d: DocId)
    ensures |Positions(chunks, {d})| == |Group(chunks, d)|
  {
    if chunks == [] {
      assert Positions(chunks, {d}) == {};
    } else {
      var n := |chunks| - 1;
      GroupCounts(chunks[..n], d);
      assert Positions(chunks, {d}) == Positions(chunks[..n], {d}) + if chunks[n].documentId == d then {n} else {};
    }
  }

  lemma PositionsGrow(chunks: Batch, ds: set<DocId>, d: DocId)
    requires d !in ds
    ensures |Positions(chunks, ds + {d})| == |Positions(chunks, ds)| + |Positions(chunks, {d})|
  {
    assert Positions(chunks, ds + {d}) == Positions(chunks, ds) + Positions(chunks, {d});
    assert Positions(chunks, ds) !! Positions(chunks, {d});
  }

  ghost function WantedDocuments(c: Crypto, chunks: Batch, ds: seq<DocId>, hostHashes: set<Digest>): set<DocId> {
    set d | d in ds && ShouldSyncGroup(c, Group(chunks, d), hostHashes)
  }

  lemma {:induction false} CountIsPositions(
    c: Crypto, chunks: Batch, db: Db, ds: seq<DocId>, hostHashes: set<Digest>, model: string)
    requires Distinct(ds)
    ensures SyncGroups(c, chunks, db, ds, hostHashes, model).1
            == |Positions(chunks, WantedDocuments(c, chunks, ds, hostHashes))|
  {
    if ds == [] {
      assert Positions(chunks, WantedDocuments(c, chunks, ds, hostHashes)) == {};
    } else {
      var n := |ds| - 1;
      assert ds == ds[..n] + [ds[n]];
      CountIsPositions(c, chunks, db, ds[..n], hostHashes, model);
      var earlier := WantedDocuments(c, chunks, ds[..n], hostHashes);
      if ShouldSyncGroup(c, Group(chunks, ds[n]), hostHashes) {
        assert WantedDocuments(c, chunks, ds, hostHashes) == earlier + {ds[n]};
        PositionsGrow(chunks, earlier, ds[n]);
        GroupCounts(chunks, ds[n]);
      } else {
        assert WantedDocuments(c, chunks, ds, hostHashes) == earlier;
      }
    }
  }

  /** The import reports the number of chunks of the documents that it syncs. */
  lemma ImportCounts(c: Crypto, db: Db, chunks: Batch, model: string)
    ensures Run(c, db, chunks, model).1
            == |set j | 0 <= j < |chunks| && Syncs(c, db.table, chunks, chunks[j].documentId)|
  {
    var blocking := BlockingHashes(c, db.table, chunks);
    var wanted := WantedDocuments(c, chunks, Documents(chunks), blocking);
    KeysAreDistinct(chunks, ByDocument);
    CountIsPositions(c, chunks, db, Documents(chunks), blocking, model);
    forall j | 0 <= j < |chunks|
      ensures chunks[j].documentId in wanted <==> Syncs(c, db.table, chunks, chunks[j].documentId)
    {
      WantedIsSynced(c, db.table, chunks, chunks[j].documentId);
    }
    assert Positions(chunks, wanted)
        == set j | 0 <= j < |chunks| && Syncs(c, db.table, chunks, chunks[j].documentId);
  }
}
