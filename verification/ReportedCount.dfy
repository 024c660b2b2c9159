/** The number that an import reports, and the rows that its synced documents end up with. */
module ReportedCount {
  import opened Wrappers
  import opened DocumentTable
  import opened DocumentSync
  import opened LangflowMapping
  import opened Grouping
  import opened StableSort
  import opened Reconciliation

  ghost function RowsOf(t: Table, ds: set<DocId>): set<Key> {
    set k | k in t && k.0 in ds
  }

  ghost function WantedSet(c: Crypto, chunks: Batch, ds: seq<DocId>, hostHashes: set<Digest>): set<DocId> {
    set d | d in ds && ShouldSyncGroup(c, Group(chunks, d), hostHashes)
  }

  ghost function KeysAt(d: DocId, indices: set<int>): (ks: set<Key>)
    ensures |ks| == |indices|
    ensures forall k: Key :: k in ks <==> k.0 == d && k.1 in indices
  {
    if |indices| == 0 then {} else KeysAt(d, indices - {Least(indices)}) + {(d, Least(indices))}
  }

  lemma RowCount(t: Table, d: DocId)
    ensures |RowsOf(t, {d})| == |Indices(t, d)|
  {
    IndicesMeaning(t, d);
    forall k: Key
      ensures k in RowsOf(t, {d}) <==> k in KeysAt(d, Indices(t, d))
    {
      assert k == (k.0, k.1);
    }
    assert RowsOf(t, {d}) == KeysAt(d, Indices(t, d));
  }

  lemma RowsOfOneMore(t: Table, ds: set<DocId>, d: DocId)
    requires d !in ds
    ensures |RowsOf(t, ds + {d})| == |RowsOf(t, ds)| + |RowsOf(t, {d})|
  {
    assert RowsOf(t, ds + {d}) == RowsOf(t, ds) + RowsOf(t, {d});
    assert RowsOf(t, ds) !! RowsOf(t, {d});
  }

  function IndexOf(x: MappedChunk): int {
    x.chunkIndex
  }

  ghost predicate DistinctIndices(group: seq<MappedChunk>) {
    Distinct(Map(IndexOf, group))
  }

  /** The group was stored already, or no two of its chunks have one index. */
  ghost predicate CountsRight(c: Crypto, t: Table, chunks: Batch, d: DocId, model: string) {
    Matched(c, t, chunks, d, model) || DistinctIndices(Group(chunks, d))
  }

  lemma CountsRightFrame(c: Crypto, t: Table, u: Table, chunks: Batch, d: DocId, model: string)
    requires forall i: int :: SameRow(t, u, (d, i))
    ensures CountsRight(c, t, chunks, d, model) <==> CountsRight(c, u, chunks, d, model)
  {
    MatchFrame(t, u, d, Digests(c, Sorted(Drafts(chunks, d), ByIndex)), model);
  }

  lemma DraftIndices(chunks: Batch, d: DocId, i: int)
    ensures HasIndex(Sorted(Drafts(chunks, d), ByIndex), i) <==> i in Map(IndexOf, Group(chunks, d))
  {
    var ordered, group := Sorted(Drafts(chunks, d), ByIndex), Group(chunks, d);
    if HasIndex(ordered, i) {
      var y :| y in ordered && y.chunkIndex == i;
      var x := DraftsOfGroup(chunks, d, y);
      var j :| 0 <= j < |group| && group[j] == x;
      assert Map(IndexOf, group)[j] == i;
    }
    if i in Map(IndexOf, group) {
      var j :| 0 <= j < |group| && Map(IndexOf, group)[j] == i;
      assert Drafts(chunks, d)[j] in multiset(Drafts(chunks, d));
      assert AsDraft(group[j]) in multiset(ordered);
    }
  }

  lemma ReplacedIndices(c: Crypto, chunks: Batch, t: Table, d: DocId, model: string)
    requires Group(chunks, d) != []
    ensures Indices(Replace(c, t, d, Sorted(Drafts(chunks, d), ByIndex), model), d)
            == Members(Map(IndexOf, Group(chunks, d)))
  {
    var ordered := Sorted(Drafts(chunks, d), ByIndex);
    var u := Replace(c, t, d, ordered, model);
    SortedDraftsFit(chunks, d);
    ReplaceRows(c, t, d, ordered, model);
    IndicesMeaning(u, d);
    forall i: int
      ensures i in Indices(u, d) <==> i in Members(Map(IndexOf, Group(chunks, d)))
    {
      DraftIndices(chunks, d, i);
    }
  }

  /** A synced document has as many rows as chunks, or fewer. */
  lemma SyncedRowCount(c: Crypto, chunks: Batch, db: Db, d: DocId, hostHashes: set<Digest>, model: string)
    requires ShouldSyncGroup(c, Group(chunks, d), hostHashes)
    ensures var rows := |RowsOf(SyncGroup(c, chunks, db, d, hostHashes, model).0.table, {d})|;
            && rows <= |Group(chunks, d)|
            && (rows == |Group(chunks, d)| <==> CountsRight(c, db.table, chunks, d, model))
  {
    var ordered, after := Sorted(Drafts(chunks, d), ByIndex), SyncGroup(c, chunks, db, d, hostHashes, model).0;
    RowCount(after.table, d);
    if FingerprintsMatch(db.table, d, Digests(c, ordered), model) {
      SortedDraftsFit(chunks, d);
    } else {
      ReplacedIndices(c, chunks, db.table, d, model);
      MembersSize(Map(IndexOf, Group(chunks, d)));
    }
  }

  ghost predicate AllCountRight(c: Crypto, t: Table, chunks: Batch, ds: seq<DocId>, hostHashes: set<Digest>,
                                model: string)
  {
    forall d | Wanted(c, chunks, ds, hostHashes, d) :: CountsRight(c, t, chunks, d, model)
  }

  /** The count of the syncing pass and the rows of the documents that it synced. */
  lemma {:induction false} CountIffRight(
    c: Crypto, chunks: Batch, db: Db, ds: seq<DocId>, hostHashes: set<Digest>, model: string)
    requires Distinct(ds)
    ensures var (after, count) := SyncGroups(c, chunks, db, ds, hostHashes, model);
            var rows := |RowsOf(after.table, WantedSet(c, chunks, ds, hostHashes))|;
            && rows <= count
            && (rows == count <==> AllCountRight(c, db.table, chunks, ds, hostHashes, model))
  {
    if ds == [] {
      assert RowsOf(db.table, WantedSet(c, chunks, ds, hostHashes)) == {};
    } else {
      var n := |ds| - 1;
      assert ds == ds[..n] + [ds[n]];
      CountIffRight(c, chunks, db, ds[..n], hostHashes, model);
      CountStep(c, chunks, db, ds[..n], ds[n], hostHashes, model);
    }
  }

  lemma WantedMore(c: Crypto, chunks: Batch, ds: seq<DocId>, last: DocId, hostHashes: set<Digest>)
    ensures var wanted := WantedSet(c, chunks, ds, hostHashes);
            WantedSet(c, chunks, ds + [last], hostHashes)
            == if ShouldSyncGroup(c, Group(chunks, last), hostHashes) then wanted + {last} else wanted
    ensures forall d ::
              Wanted(c, chunks, ds + [last], hostHashes, d) <==>
              || Wanted(c, chunks, ds, hostHashes, d)
              || (d == last && ShouldSyncGroup(c, Group(chunks, last), hostHashes))
  {
    assert forall d :: d in ds + [last] <==> d in ds || d == last;
  }

  lemma RowsOfUnchanged(t: Table, u: Table, ds: set<DocId>, d: DocId)
    requires SameOutside(t, u, d) && d !in ds
    ensures RowsOf(t, ds) == RowsOf(u, ds)
  {}

  lemma CountStep(
    c: Crypto, chunks: Batch, db: Db, ds: seq<DocId>, last: DocId, hostHashes: set<Digest>, model: string)
    requires last !in ds
    ensures var all := ds + [last];
            var before := SyncGroups(c, chunks, db, ds, hostHashes, model).0;
            var (after, more) := SyncGroup(c, chunks, before, last, hostHashes, model);
            var wanted := WantedSet(c, chunks, ds, hostHashes);
            var rows := |RowsOf(after.table, WantedSet(c, chunks, all, hostHashes))|;
            && |RowsOf(before.table, wanted)| <= rows <= |RowsOf(before.table, wanted)| + more
            && (AllCountRight(c, db.table, chunks, all, hostHashes, model) <==>
                  && AllCountRight(c, db.table, chunks, ds, hostHashes, model)
                  && rows == |RowsOf(before.table, wanted)| + more)
  {
    var before := SyncGroups(c, chunks, db, ds, hostHashes, model).0;
    var after := SyncGroup(c, chunks, before, last, hostHashes, model).0;
    var wanted := WantedSet(c, chunks, ds, hostHashes);
    WantedMore(c, chunks, ds, last, hostHashes);
    SyncGroupFrame(c, chunks, before, last, hostHashes, model);
    RowsOfUnchanged(before.table, after.table, wanted, last);
    if ShouldSyncGroup(c, Group(chunks, last), hostHashes) {
      RowsOfOneMore(after.table, wanted, last);
      SyncedRowCount(c, chunks, before, last, hostHashes, model);
      UntouchedCountsRight(c, chunks, db, ds, last, hostHashes, model);
    }
  }

  lemma UntouchedCountsRight(
    c: Crypto, chunks: Batch, db: Db, ds: seq<DocId>, d: DocId, hostHashes: set<Digest>, model: string)
    requires d !in ds
    ensures CountsRight(c, db.table, chunks, d, model) <==>
            CountsRight(c, SyncGroups(c, chunks, db, ds, hostHashes, model).0.table, chunks, d, model)
  {
    var after := SyncGroups(c, chunks, db, ds, hostHashes, model).0;
    forall i: int
      ensures SameRow(db.table, after.table, (d, i))
    {
      SyncGroupsFrame(c, chunks, db, ds, hostHashes, model, (d, i));
    }
    CountsRightFrame(c, db.table, after.table, chunks, d, model);
  }

  /** Every synced document starts as a fallback or has no fallback under its id. */
  ghost predicate Unmixed(c: Crypto, t: Table, chunks: Batch) {
    forall d | Wanted(c, chunks, Documents(chunks), BlockingHashes(c, t, chunks), d) ::
      OneKind(t, chunks, d)
  }

  lemma SyncedRowsSurvive(c: Crypto, db: Db, chunks: Batch, model: string)
    requires Unmixed(c, db.table, chunks)
    ensures var wanted := WantedSet(c, chunks, Documents(chunks), BlockingHashes(c, db.table, chunks));
            RowsOf(Run(c, db, chunks, model).0.table, wanted) == RowsOf(Synced(c, db, chunks, model).0.table, wanted)
  {
    var blocking := BlockingHashes(c, db.table, chunks);
    var wanted := WantedSet(c, chunks, Documents(chunks), blocking);
    var mid, after := Synced(c, db, chunks, model).0.table, Run(c, db, chunks, model).0.table;
    forall k: Key | k.0 in wanted
      ensures k in after <==> k in mid
    {
      assert Wanted(c, chunks, Documents(chunks), blocking, k.0);
      SyncedGroupSurvives(c, db, chunks, model, k);
    }
  }

  /**
   The count an import reports is never less than the number of rows its synced documents end up
   with, and equals it exactly when each of them was stored already or has no index twice.
  */
  lemma ReportedCountIff(c: Crypto, db: Db, chunks: Batch, model: string)
    requires Unmixed(c, db.table, chunks)
    ensures var (after, count) := Run(c, db, chunks, model);
            var blocking := BlockingHashes(c, db.table, chunks);
            var rows := |RowsOf(after.table, WantedSet(c, chunks, Documents(chunks), blocking))|;
            && rows <= count
            && (rows == count <==> AllCountRight(c, db.table, chunks, Documents(chunks), blocking, model))
  {
    KeysAreDistinct(chunks, ByDocument);
    CountIffRight(c, chunks, db, Documents(chunks), BlockingHashes(c, db.table, chunks), model);
    SyncedRowsSurvive(c, db, chunks, model);
  }

  /** For well-formed batches and tables the count is that number. */
  lemma ReportedCountIsStored(c: Crypto, db: Db, chunks: Batch, kind: DocId -> bool, model: string)
    requires WellFormed(chunks, kind) && Kinded(db.table, kind)
    ensures var (after, count) := Run(c, db, chunks, model);
            count == |RowsOf(after.table,
                             WantedSet(c, chunks, Documents(chunks), BlockingHashes(c, db.table, chunks)))|
  {
    forall d | d in Documents(chunks)
      ensures OneKind(db.table, chunks, d)
      ensures DistinctIndices(Group(chunks, d))
    {
      WellFormedGroup(chunks, kind, db.table, d);
    }
    ReportedCountIff(c, db, chunks, model);
  }

  lemma WellFormedGroup(chunks: Batch, kind: DocId -> bool, t: Table, d: DocId)
    requires WellFormed(chunks, kind) && Kinded(t, kind) && d in Documents(chunks)
    ensures OneKind(t, chunks, d)
    ensures DistinctIndices(Group(chunks, d))
  {
    KeysAreDistinct(chunks, ByDocument);
    assert Group(chunks, d)[0] in Group(chunks, d);
  }
}
