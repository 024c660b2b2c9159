/** Replacing or skipping one document's chunks, decided by fingerprint. */
module DocumentSync {
  import opened Wrappers
  import opened DocumentTable
  import opened StableSort

  const INGEST_VERSION := "1"

  datatype ChunkDraft = ChunkDraft(
    documentId: DocId,
    chunkIndex: int,
    title: string,
    content: string,
    source: Option<string>,
    embedding: seq<real>,
    metadata: Option<Metadata>)

  datatype SyncAction = Skipped | Replaced

  datatype SyncResult = SyncResult(action: SyncAction, documentId: DocId, chunkCount: nat)

  datatype SyncError = NoChunks | MixedDocuments

  predicate ByIndex(a: ChunkDraft, b: ChunkDraft) {
    a.chunkIndex <= b.chunkIndex
  }

  function InvestigationMetadata(source: Option<string>, index: int, extra: Option<Metadata>): Metadata {
    (if extra.Some? then extra.value else map[])
    ["source" := if source.Some? then JsonText(source.value) else JsonNull]
    ["chunk_index" := JsonNumber(index)]
    ["ingest_version" := JsonText(INGEST_VERSION)]
  }

  function RowOf(c: Crypto, draft: ChunkDraft, model: string): Row {
    Row(draft.title, draft.content, draft.source,
        InvestigationMetadata(draft.source, draft.chunkIndex, draft.metadata),
        Some(c.sha256(draft.content)), Some(model), draft.embedding)
  }

  /** The caller's metadata, with the three keys that ingest sets laid over it. */
  ghost predicate HoldsMetadata(stored: Metadata, extra: Option<Metadata>, source: Option<string>, index: int) {
    && "source" in stored && stored["source"] == (if source.Some? then JsonText(source.value) else JsonNull)
    && "chunk_index" in stored && stored["chunk_index"] == JsonNumber(index)
    && "ingest_version" in stored && stored["ingest_version"] == JsonText("1")
    && forall k | k !in {"source", "chunk_index", "ingest_version"} ::
         if extra.Some? && k in extra.value then k in stored && stored[k] == extra.value[k] else k !in stored
  }

  /** The row has the draft's title, content, source, embedding and metadata, its digest and this model. */
  ghost predicate HoldsDraft(c: Crypto, row: Row, x: ChunkDraft, model: string) {
    && row.title == x.title && row.content == x.content && row.source == x.source && row.embedding == x.embedding
    && HoldsMetadata(row.metadata, x.metadata, x.source, x.chunkIndex)
    && row.digest == Some(c.sha256(x.content)) && row.model == Some(model)
  }

  /** No later draft has the index of draft `j`. */
  ghost predicate LastOfIndex(drafts: seq<ChunkDraft>, j: nat) {
    j < |drafts| && forall k | j < k < |drafts| :: drafts[k].chunkIndex != drafts[j].chunkIndex
  }

  /**
   From `t` to `u` the rows of `d` were replaced by the drafts': each index that occurs has a row,
   which holds the last draft of that index in input order, and no other row of `d` is left.
  */
  ghost predicate ReplacedBy(c: Crypto, t: Table, u: Table, d: DocId, drafts: seq<ChunkDraft>, model: string) {
    && SameOutside(t, u, d)
    && (forall j | 0 <= j < |drafts| && LastOfIndex(drafts, j) ::
          (d, drafts[j].chunkIndex) in u && HoldsDraft(c, u[(d, drafts[j].chunkIndex)], drafts[j], model))
    && (forall i: int | (d, i) in u :: exists j :: 0 <= j < |drafts| && drafts[j].chunkIndex == i)
  }

  function SingleDocumentId(drafts: seq<ChunkDraft>): Result<DocId, SyncError> {
    if drafts == [] then Err(NoChunks)
    else if exists x | x in drafts :: x.documentId != drafts[0].documentId then Err(MixedDocuments)
    else Ok(drafts[0].documentId)
  }

  function Texts(drafts: seq<ChunkDraft>): seq<string> {
    seq(|drafts|, i requires 0 <= i < |drafts| => drafts[i].content)
  }

  function Hashed(c: Crypto, contents: seq<string>): seq<Digest> {
    seq(|contents|, i requires 0 <= i < |contents| => c.sha256(contents[i]))
  }

  function Digests(c: Crypto, drafts: seq<ChunkDraft>): (r: seq<Digest>)
    ensures |r| == |drafts|
    ensures forall i | 0 <= i < |r| :: r[i] == c.sha256(drafts[i].content)
  {
    Hashed(c, Texts(drafts))
  }

  function Models(rows: seq<Fingerprint>): (models: set<Option<string>>)
    ensures forall row | row in rows :: row.model in models
  {
    set row | row in rows :: row.model
  }

  /** The comparison of `fingerprint_matches` against the listed rows. */
  predicate FingerprintsMatch(t: Table, d: DocId, digests: seq<Digest>, model: string) {
    var existing := Fingerprints(t, d);
    && existing != []
    && |existing| == |digests|
    && (forall i | 0 <= i < |existing| :: existing[i].index == i && existing[i].digest == Some(digests[i]))
    && Models(existing) == {Some(model)}
  }

  /** The rows of `d` are numbered `0..n-1` and carry exactly these digests under one model. */
  ghost predicate StoredAs(t: Table, d: DocId, digests: seq<Digest>, model: string) {
    && digests != []
    && (forall i: int :: (d, i) in t <==> 0 <= i < |digests|)
    && (forall i: int | 0 <= i < |digests| ::
          t[(d, i)].digest == Some(digests[i]) && t[(d, i)].model == Some(model))
  }

  lemma FingerprintsAreRange(t: Table, d: DocId, n: nat)
    requires forall i: int :: (d, i) in t <==> 0 <= i < n
    ensures |Fingerprints(t, d)| == n
    ensures forall i | 0 <= i < n :: Fingerprints(t, d)[i] == FingerprintAt(t, d, i)
  {
    IndicesMeaning(t, d);
    RangeSize(Indices(t, d), n);
    AscendingAscends(Indices(t, d));
    var order := Ascending(Indices(t, d));
    assert forall x | 0 <= x < |order| :: x in order;
    OrderedCoverIsRange(order, 0);
  }

  lemma MatchingAreRange(t: Table, d: DocId, digests: seq<Digest>, model: string)
    requires FingerprintsMatch(t, d, digests, model)
    ensures forall i: int :: (d, i) in t <==> 0 <= i < |digests|
  {
    IndicesMeaning(t, d);
    var existing, order := Fingerprints(t, d), Ascending(Indices(t, d));
    assert forall i | 0 <= i < |order| :: order[i] == existing[i].index == i;
    forall i: int
      ensures (d, i) in t <==> 0 <= i < |digests|
    {
      assert i in order <==> (d, i) in t;
      if 0 <= i < |digests| {
        assert order[i] in order;
      }
    }
  }

  lemma MatchingAreStored(t: Table, d: DocId, digests: seq<Digest>, model: string)
    requires FingerprintsMatch(t, d, digests, model)
    ensures StoredAs(t, d, digests, model)
  {
    MatchingAreRange(t, d, digests, model);
    FingerprintsAreRange(t, d, |digests|);
    var existing := Fingerprints(t, d);
    forall i: int | 0 <= i < |digests|
      ensures t[(d, i)].digest == Some(digests[i]) && t[(d, i)].model == Some(model)
    {
      assert existing[i] in existing && existing[i].model in Models(existing);
    }
  }

  lemma StoredAreMatching(t: Table, d: DocId, digests: seq<Digest>, model: string)
    requires StoredAs(t, d, digests, model)
    ensures FingerprintsMatch(t, d, digests, model)
  {
    FingerprintsAreRange(t, d, |digests|);
    var existing := Fingerprints(t, d);
    assert existing[0] in existing;
    assert Models(existing) == {Some(model)};
  }

  /** The fingerprint comparison decides exactly whether the stored rows are the incoming ones. */
  lemma MatchIffStored(t: Table, d: DocId, digests: seq<Digest>, model: string)
    ensures FingerprintsMatch(t, d, digests, model) <==> StoredAs(t, d, digests, model)
  {
    if FingerprintsMatch(t, d, digests, model) {
      MatchingAreStored(t, d, digests, model);
    }
    if StoredAs(t, d, digests, model) {
      StoredAreMatching(t, d, digests, model);
    }
  }

  /** Upserting drafts one after another: on a repeated key the last one wins. */
  function UpsertAll(c: Crypto, t: Table, drafts: seq<ChunkDraft>, model: string): Table {
    if drafts == [] then t
    else
      var last := drafts[|drafts| - 1];
      UpsertAll(c, t, drafts[..|drafts| - 1], model)[(last.documentId, last.chunkIndex) := RowOf(c, last, model)]
  }

  function Replace(c: Crypto, t: Table, d: DocId, ordered: seq<ChunkDraft>, model: string): Table {
    UpsertAll(c, DeleteDocument(t, d), ordered, model)
  }

  function SyncOrdered(c: Crypto, db: Db, d: DocId, ordered: seq<ChunkDraft>, model: string): (Db, SyncAction) {
    if FingerprintsMatch(db.table, d, Digests(c, ordered), model) then (db, Skipped)
    else (Db(Replace(c, db.table, d, ordered, model), db.writes + 1 + |ordered|), Replaced)
  }

  function Sync(c: Crypto, db: Db, drafts: seq<ChunkDraft>, model: string): Result<(Db, SyncResult), SyncError> {
    match SingleDocumentId(drafts)
    case Err(e) => Err(e)
    case Ok(d) =>
      var (after, action) := SyncOrdered(c, db, d, Sorted(drafts, ByIndex), model);
      Ok((after, SyncResult(action, d, |drafts|)))
  }

  /** Drafts of one document. */
  ghost predicate OneDocument(drafts: seq<ChunkDraft>, d: DocId) {
    drafts != [] && forall x | x in drafts :: x.documentId == d
  }

  ghost predicate Numbered(ordered: seq<ChunkDraft>) {
    forall i | 0 <= i < |ordered| :: ordered[i].chunkIndex == i
  }

  lemma OneDocumentId(drafts: seq<ChunkDraft>, d: DocId)
    requires OneDocument(drafts, d)
    ensures SingleDocumentId(drafts) == Ok(d)
    ensures OneDocument(Sorted(drafts, ByIndex), d)
  {
    assert drafts[0] in drafts;
    forall x | x in Sorted(drafts, ByIndex)
      ensures x.documentId == d
    {
      assert x in multiset(Sorted(drafts, ByIndex));
    }
  }

  ghost predicate HasIndex(drafts: seq<ChunkDraft>, i: int) {
    exists x | x in drafts :: x.chunkIndex == i
  }

  lemma {:induction false} UpsertAllRows(c: Crypto, t: Table, d: DocId, drafts: seq<ChunkDraft>, model: string)
    requires forall x | x in drafts :: x.documentId == d
    ensures SameOutside(t, UpsertAll(c, t, drafts, model), d)
    ensures forall i: int :: (d, i) in UpsertAll(c, t, drafts, model) <==>
                             (d, i) in t || HasIndex(drafts, i)
    ensures forall i: int | (d, i) in UpsertAll(c, t, drafts, model) ::
              || ((d, i) in t && UpsertAll(c, t, drafts, model)[(d, i)] == t[(d, i)])
              || exists x | x in drafts ::
                   x.chunkIndex == i && UpsertAll(c, t, drafts, model)[(d, i)] == RowOf(c, x, model)
  {
    if drafts != [] {
      var n := |drafts| - 1;
      assert drafts == drafts[..n] + [drafts[n]];
      assert drafts[n] in drafts;
      UpsertAllRows(c, t, d, drafts[..n], model);
    }
  }

  lemma {:induction false} UpsertAllHolds(c: Crypto, t: Table, d: DocId, drafts: seq<ChunkDraft>, model: string, j: nat)
    requires (forall x | x in drafts :: x.documentId == d) && LastOfIndex(drafts, j)
    ensures var u := UpsertAll(c, t, drafts, model);
            (d, drafts[j].chunkIndex) in u && HoldsDraft(c, u[(d, drafts[j].chunkIndex)], drafts[j], model)
  {
    var n := |drafts| - 1;
    assert drafts == drafts[..n] + [drafts[n]];
    assert drafts[n] in drafts;
    if j < n {
      UpsertAllHolds(c, t, d, drafts[..n], model, j);
    }
  }

  lemma IndexIsPreorder()
    ensures TotalPreorder(ByIndex)
  {}

  /** Replacing by the sorted drafts stores every draft that no later one of its index supersedes, field by field. */
  lemma ReplaceStoresDrafts(c: Crypto, t: Table, d: DocId, drafts: seq<ChunkDraft>, model: string)
    requires OneDocument(drafts, d)
    ensures ReplacedBy(c, t, Replace(c, t, d, Sorted(drafts, ByIndex), model), d, drafts, model)
  {
    var ordered := Sorted(drafts, ByIndex);
    var u := Replace(c, t, d, ordered, model);
    OneDocumentId(drafts, d);
    ReplaceRows(c, t, d, ordered, model);
    forall j | 0 <= j < |drafts| && LastOfIndex(drafts, j)
      ensures (d, drafts[j].chunkIndex) in u && HoldsDraft(c, u[(d, drafts[j].chunkIndex)], drafts[j], model)
    {
      IndexIsPreorder();
      var i := SortedKeepsLast(drafts[j], drafts, ByIndex, j);
      UpsertAllHolds(c, DeleteDocument(t, d), d, ordered, model, i);
    }
    forall i: int | (d, i) in u
      ensures exists j :: 0 <= j < |drafts| && drafts[j].chunkIndex == i
    {
      var x :| x in ordered && x.chunkIndex == i;
      assert x in multiset(drafts);
    }
  }

  /** What replacing leaves behind: the drafts' indices and nothing else under this document. */
  lemma ReplaceRows(c: Crypto, t: Table, d: DocId, ordered: seq<ChunkDraft>, model: string)
    requires OneDocument(ordered, d)
    ensures var u := Replace(c, t, d, ordered, model);
            && SameOutside(t, u, d)
            && (forall i: int :: (d, i) in u <==> HasIndex(ordered, i))
            && (forall i: int | (d, i) in u ::
                  exists x | x in ordered :: x.chunkIndex == i && u[(d, i)] == RowOf(c, x, model))
            && (Numbered(ordered) ==> StoredAs(u, d, Digests(c, ordered), model))
  {
    var u := Replace(c, t, d, ordered, model);
    var cleared := DeleteDocument(t, d);
    UpsertAllRows(c, cleared, d, ordered, model);
    assert forall i: int :: (d, i) !in cleared;
    assert SameOutside(t, cleared, d);
    if Numbered(ordered) {
      forall i: int
        ensures (d, i) in u <==> 0 <= i < |ordered|
      {
        if 0 <= i < |ordered| {
          assert ordered[i] in ordered;
        }
      }
    }
  }

  lemma OrderedStoresIncoming(c: Crypto, db: Db, d: DocId, ordered: seq<ChunkDraft>, model: string)
    requires OneDocument(ordered, d) && Numbered(ordered)
    ensures var (after, action) := SyncOrdered(c, db, d, ordered, model);
            && StoredAs(after.table, d, Digests(c, ordered), model)
            && SameOutside(db.table, after.table, d)
            && (action == Skipped <==> StoredAs(db.table, d, Digests(c, ordered), model))
            && (action == Skipped ==> after == db)
            && (action == Replaced ==> after.writes > db.writes)
  {
    MatchIffStored(db.table, d, Digests(c, ordered), model);
    ReplaceRows(c, db.table, d, ordered, model);
  }

  /**
   For chunks numbered from zero, in whatever order they come, a sync leaves exactly the incoming
   fingerprints under the document, touches no other document, and skips precisely when they were
   there already.
  */
  lemma SyncStoresIncoming(c: Crypto, db: Db, drafts: seq<ChunkDraft>, d: DocId, model: string)
    requires OneDocument(drafts, d) && Numbered(Sorted(drafts, ByIndex))
    ensures Sync(c, db, drafts, model).Ok?
    ensures var (after, result) := Sync(c, db, drafts, model).value;
            var digests := Digests(c, Sorted(drafts, ByIndex));
            && result.documentId == d && result.chunkCount == |drafts|
            && StoredAs(after.table, d, digests, model)
            && SameOutside(db.table, after.table, d)
            && (result.action == Skipped <==> StoredAs(db.table, d, digests, model))
            && (result.action == Skipped ==> after == db)
            && (result.action == Replaced ==> after.writes > db.writes)
  {
    OneDocumentId(drafts, d);
    OrderedStoresIncoming(c, db, d, Sorted(drafts, ByIndex), model);
  }

  function ChunkIndices(drafts: seq<ChunkDraft>): (r: seq<int>)
    ensures |r| == |drafts|
    ensures forall i | 0 <= i < |r| :: r[i] == drafts[i].chunkIndex
  {
    seq(|drafts|, i requires 0 <= i < |drafts| => drafts[i].chunkIndex)
  }

  lemma CoveredMeansNumbered(ordered: seq<ChunkDraft>)
    requires Ordered(ordered, ByIndex)
    requires forall x | 0 <= x < |ordered| :: HasIndex(ordered, x)
    ensures Numbered(ordered)
  {
    var indices := ChunkIndices(ordered);
    forall x | 0 <= x < |indices|
      ensures x in indices
    {
      assert HasIndex(ordered, x);
      var y :| y in ordered && y.chunkIndex == x;
      var i :| 0 <= i < |ordered| && ordered[i] == y;
      assert indices[i] == x;
    }
    forall i, j | 0 <= i < j < |indices|
      ensures indices[i] <= indices[j]
    {
      assert ByIndex(ordered[i], ordered[j]);
    }
    OrderedCoverIsRange(indices, 0);
  }

  lemma StoredIffNumbered(c: Crypto, t: Table, d: DocId, ordered: seq<ChunkDraft>, model: string)
    requires OneDocument(ordered, d) && Ordered(ordered, ByIndex)
    ensures StoredAs(Replace(c, t, d, ordered, model), d, Digests(c, ordered), model) <==> Numbered(ordered)
  {
    ReplaceRows(c, t, d, ordered, model);
    var u := Replace(c, t, d, ordered, model);
    if StoredAs(u, d, Digests(c, ordered), model) {
      forall x | 0 <= x < |ordered|
        ensures HasIndex(ordered, x)
      {
        assert (d, x) in u;
      }
      CoveredMeansNumbered(ordered);
    }
  }

  /**
   An immediate second sync writes nothing exactly when the fingerprints matched before the first
   one or the chunks are numbered `0..n-1`: else a gap or a repeated index makes every later sync
   rewrite the document.
  */
  lemma ResyncSkipsIff(c: Crypto, db: Db, drafts: seq<ChunkDraft>, d: DocId, model: string)
    requires OneDocument(drafts, d)
    ensures Sync(c, db, drafts, model).Ok?
    ensures var (after, first) := Sync(c, db, drafts, model).value;
            && Sync(c, after, drafts, model).Ok?
            && var (again, second) := Sync(c, after, drafts, model).value;
            var ordered := Sorted(drafts, ByIndex);
            && (again.writes == after.writes <==>
                  FingerprintsMatch(db.table, d, Digests(c, ordered), model) || Numbered(ordered))
            && (again.writes == after.writes <==> second.action == Skipped)
            && (again.writes == after.writes ==> again == after)
  {
    OneDocumentId(drafts, d);
    SortedIsOrdered(drafts, ByIndex);
    var ordered := Sorted(drafts, ByIndex);
    var (after, first) := SyncOrdered(c, db, d, ordered, model);
    MatchIffStored(after.table, d, Digests(c, ordered), model);
    StoredIffNumbered(c, db.table, d, ordered, model);
  }

  method MatchFingerprints(repository: VectorRepository, c: Crypto, d: DocId, contents: seq<string>, model: string)
    returns (matches: bool)
    ensures matches <==> StoredAs(repository.table, d, Hashed(c, contents), model)
    ensures matches <==> FingerprintsMatch(repository.table, d, Hashed(c, contents), model)
  {
    MatchIffStored(repository.table, d, Hashed(c, contents), model);
    var incoming := Hashed(c, contents);
    var existing := repository.ListChunkFingerprints(d);
    matches := existing != [] && |existing| == |incoming|
      && (forall i | 0 <= i < |existing| :: existing[i].index == i && existing[i].digest == Some(incoming[i]))
      && Models(existing) == {Some(model)};
  }

  ghost predicate OneIdOnly(drafts: seq<ChunkDraft>) {
    forall x, y | x in drafts && y in drafts :: x.documentId == y.documentId
  }

  /** Replacing fails without a write on no chunks or on mixed documents, and else stores the chunks. */
  ghost predicate ReplaceOutcome(c: Crypto, before: Db, after: Db, drafts: seq<ChunkDraft>, model: string,
                                 outcome: Result<(), SyncError>)
  {
    match outcome
    case Err(NoChunks) => drafts == [] && after == before
    case Err(MixedDocuments) => !OneIdOnly(drafts) && after == before
    case Ok(_) =>
      && drafts != [] && OneIdOnly(drafts)
      && ReplacedBy(c, before.table, after.table, drafts[0].documentId, drafts, model)
      && after.writes == before.writes + 1 + |drafts|
  }

  lemma ReplaceDoes(c: Crypto, before: Db, drafts: seq<ChunkDraft>, model: string)
    ensures var id := SingleDocumentId(drafts);
            if id.Err? then ReplaceOutcome(c, before, before, drafts, model, Err(id.error))
            else
              var ordered := Sorted(drafts, ByIndex);
              var after := Db(Replace(c, before.table, id.value, ordered, model), before.writes + 1 + |drafts|);
              ReplaceOutcome(c, before, after, drafts, model, Ok(()))
  {
    if SingleDocumentId(drafts).Ok? {
      assert OneDocument(drafts, drafts[0].documentId);
      ReplaceStoresDrafts(c, before.table, drafts[0].documentId, drafts, model);
    }
  }

  /** `replace_document`. */
  method ReplaceDocument(repository: VectorRepository, c: Crypto, drafts: seq<ChunkDraft>, model: string)
    returns (outcome: Result<(), SyncError>)
    modifies repository
    ensures outcome.Err? <==> SingleDocumentId(drafts).Err?
    ensures outcome.Err? ==> outcome.error == SingleDocumentId(drafts).error
                             && repository.Contents() == old(repository.Contents())
    ensures outcome.Ok? ==>
              && repository.writes == old(repository.writes) + 1 + |drafts|
              && repository.table
                 == Replace(c, old(repository.table), SingleDocumentId(drafts).value, Sorted(drafts, ByIndex), model)
    ensures ReplaceOutcome(c, old(repository.Contents()), repository.Contents(), drafts, model, outcome)
  {
    ReplaceDoes(c, repository.Contents(), drafts, model);
    var id := SingleDocumentId(drafts);
    if id.Err? {
      return Err(id.error);
    }
    repository.DeleteByDocumentId(id.value);
    var ordered := Sorted(drafts, ByIndex);
    var cleared := repository.table;
    for i := 0 to |ordered|
      invariant repository.table == UpsertAll(c, cleared, ordered[..i], model)
      invariant repository.writes == old(repository.writes) + 1 + i
    {
      assert ordered[..i + 1][..i] == ordered[..i];
      repository.UpsertDocument(ordered[i].documentId, ordered[i].chunkIndex, RowOf(c, ordered[i], model));
    }
    assert ordered[..|ordered|] == ordered;
    outcome := Ok(());
  }

  /** What `sync_document` passes on to `replace_document` is sorted already and of the same document. */
  lemma ResortingIsIdentity(drafts: seq<ChunkDraft>, d: DocId)
    requires SingleDocumentId(drafts) == Ok(d)
    ensures var ordered := Sorted(drafts, ByIndex);
            SingleDocumentId(ordered) == Ok(d) && Sorted(ordered, ByIndex) == ordered
  {
    OneDocumentId(drafts, d);
    OneDocumentId(Sorted(drafts, ByIndex), d);
    SortedIsOrdered(drafts, ByIndex);
    SortedFixpointIffOrdered(Sorted(drafts, ByIndex), ByIndex);
  }

  /**
   What syncing does in every case: nothing on no chunks or on mixed documents; nothing if the stored
   rows are numbered from zero and have the digests of the sorted chunks under this model; and
   otherwise it replaces the document's rows by the chunks.
  */
  ghost predicate SyncOutcome(c: Crypto, before: Db, after: Db, drafts: seq<ChunkDraft>, model: string,
                              outcome: Result<SyncResult, SyncError>)
  {
    match outcome
    case Err(NoChunks) => drafts == [] && after == before
    case Err(MixedDocuments) => !OneIdOnly(drafts) && after == before
    case Ok(SyncResult(action, d, count)) =>
      && drafts != [] && OneIdOnly(drafts) && d == drafts[0].documentId && count == |drafts|
      && if StoredAs(before.table, d, Digests(c, Sorted(drafts, ByIndex)), model)
         then action == Skipped && after == before
         else action == Replaced && ReplacedBy(c, before.table, after.table, d, drafts, model)
              && after.writes == before.writes + 1 + |drafts|
  }

  lemma SyncDoes(c: Crypto, db: Db, drafts: seq<ChunkDraft>, model: string)
    ensures match Sync(c, db, drafts, model)
            case Err(e) => SyncOutcome(c, db, db, drafts, model, Err(e))
            case Ok((after, result)) => SyncOutcome(c, db, after, drafts, model, Ok(result))
  {
    if SingleDocumentId(drafts).Ok? {
      var d := drafts[0].documentId;
      assert OneDocument(drafts, d);
      MatchIffStored(db.table, d, Digests(c, Sorted(drafts, ByIndex)), model);
      ReplaceStoresDrafts(c, db.table, d, drafts, model);
    }
  }

  /** The comparison and the replacement, once the chunks are sorted. */
  method SyncSorted(repository: VectorRepository, c: Crypto, drafts: seq<ChunkDraft>, d: DocId,
                    ordered: seq<ChunkDraft>, model: string) returns (action: SyncAction)
    requires SingleDocumentId(drafts) == Ok(d) && ordered == Sorted(drafts, ByIndex)
    modifies repository
    ensures action == if FingerprintsMatch(old(repository.table), d, Digests(c, ordered), model)
                      then Skipped else Replaced
    ensures action == Skipped ==> repository.Contents() == old(repository.Contents())
    ensures action == Replaced ==>
              && repository.table == Replace(c, old(repository.table), d, ordered, model)
              && repository.writes == old(repository.writes) + 1 + |ordered|
  {
    ghost var digests := Digests(c, ordered);
    var matches := MatchFingerprints(repository, c, d, Texts(ordered), model);
    assert matches <==> FingerprintsMatch(repository.table, d, digests, model);
    if matches {
      return Skipped;
    }
    ResortingIsIdentity(drafts, d);
    var replaced := ReplaceDocument(repository, c, ordered, model);
    action := Replaced;
  }

  /** `sync_document`. */
  method SyncDocument(repository: VectorRepository, c: Crypto, drafts: seq<ChunkDraft>, model: string)
    returns (outcome: Result<SyncResult, SyncError>)
    modifies repository
    ensures match Sync(c, old(repository.Contents()), drafts, model)
            case Err(e) => outcome == Err(e) && repository.Contents() == old(repository.Contents())
            case Ok((after, result)) => outcome == Ok(result) && repository.Contents() == after
    ensures SyncOutcome(c, old(repository.Contents()), repository.Contents(), drafts, model, outcome)
  {
    SyncDoes(c, repository.Contents(), drafts, model);
    var id := SingleDocumentId(drafts);
    if id.Err? {
      return Err(id.error);
    }
    var ordered := Sorted(drafts, ByIndex);
    var action := SyncSorted(repository, c, drafts, id.value, ordered, model);
    outcome := Ok(SyncResult(action, id.value, |ordered|));
  }
}
