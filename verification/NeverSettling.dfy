/** Batches whose import never settles: host documents whose indices leave a gap or repeat. */
module NeverSettling {
  import opened Wrappers
  import opened DocumentTable
  import opened DocumentSync
  import opened LangflowMapping
  import opened Grouping
  import opened StableSort
  import opened Reconciliation
  import Text

  ghost predicate NumberedGroup(chunks: Batch, d: DocId) {
    Numbered(Sorted(Drafts(chunks, d), ByIndex))
  }

  /** The batch carries the document, its chunks start with a host source, and they are not numbered. */
  ghost predicate Restless(chunks: Batch, d: DocId) {
    Group(chunks, d) != [] && !IsFallbackSource(Group(chunks, d)[0].source) && !NumberedGroup(chunks, d)
  }

  lemma ReplacedIsUnmatched(c: Crypto, chunks: Batch, t: Table, d: DocId, model: string)
    requires Group(chunks, d) != [] && !NumberedGroup(chunks, d)
    ensures !Matched(c, Replace(c, t, d, Sorted(Drafts(chunks, d), ByIndex), model), chunks, d, model)
  {
    var ordered := Sorted(Drafts(chunks, d), ByIndex);
    SortedDraftsFit(chunks, d);
    SortedIsOrdered(Drafts(chunks, d), ByIndex);
    StoredIffNumbered(c, t, d, ordered, model);
    MatchIffStored(Replace(c, t, d, ordered, model), d, Digests(c, ordered), model);
  }

  lemma {:induction false} RestlessIsRewritten(
    c: Crypto, chunks: Batch, db: Db, ds: seq<DocId>, hostHashes: set<Digest>, model: string, d: DocId)
    requires Restless(chunks, d) && !Matched(c, db.table, chunks, d, model)
    ensures var after := SyncGroups(c, chunks, db, ds, hostHashes, model).0;
            && !Matched(c, after.table, chunks, d, model)
            && after.writes >= db.writes
            && (d in ds ==> after.writes > db.writes)
  {
    if ds != [] {
      var n := |ds| - 1;
      assert ds == ds[..n] + [ds[n]];
      RestlessIsRewritten(c, chunks, db, ds[..n], hostHashes, model, d);
      var before := SyncGroups(c, chunks, db, ds[..n], hostHashes, model).0;
      if ds[n] == d {
        ReplacedIsUnmatched(c, chunks, before.table, d, model);
      } else {
        OtherGroupKeepsUnmatched(c, chunks, before, ds[n], hostHashes, model, d);
      }
    }
  }

  lemma OtherGroupKeepsUnmatched(
    c: Crypto, chunks: Batch, db: Db, e: DocId, hostHashes: set<Digest>, model: string, d: DocId)
    requires e != d && !Matched(c, db.table, chunks, d, model)
    ensures var after := SyncGroup(c, chunks, db, e, hostHashes, model).0;
            !Matched(c, after.table, chunks, d, model) && after.writes >= db.writes
  {
    SyncGroupFrame(c, chunks, db, e, hostHashes, model);
    MatchFrame(db.table, SyncGroup(c, chunks, db, e, hostHashes, model).0.table, d,
               Digests(c, Sorted(Drafts(chunks, d), ByIndex)), model);
  }

  lemma CleanupKeepsUnmatched(c: Crypto, chunks: Batch, db: Db, hostHashes: set<Digest>, model: string, d: DocId)
    requires !Matched(c, db.table, chunks, d, model)
    ensures !Matched(c, Cleanup(db, hostHashes).table, chunks, d, model)
  {
    var after, digests := Cleanup(db, hostHashes).table, Digests(c, Sorted(Drafts(chunks, d), ByIndex));
    if d in Doomed(db.table, hostHashes) {
      IndicesMeaning(after, d);
      assert Indices(after, d) == {};
    } else {
      MatchFrame(db.table, after, d, digests, model);
    }
  }

  /** One import of a restless document writes, and leaves it as unmatched as before. */
  lemma RestlessImport(c: Crypto, db: Db, chunks: Batch, model: string, d: DocId)
    requires Restless(chunks, d) && !Matched(c, db.table, chunks, d, model)
    ensures var after := Run(c, db, chunks, model).0;
            after.writes > db.writes && !Matched(c, after.table, chunks, d, model)
  {
    var blocking := BlockingHashes(c, db.table, chunks);
    var mid := Synced(c, db, chunks, model).0;
    RestlessIsRewritten(c, chunks, db, Documents(chunks), blocking, model, d);
    DocumentOf(chunks, Group(chunks, d)[0]);
    CleanupKeepsUnmatched(c, chunks, mid, BlockingHashes(c, mid.table, chunks), model, d);
  }

  /** Each of the next `n` imports of the batch writes. */
  ghost predicate EachWrites(c: Crypto, db: Db, chunks: Batch, model: string, n: nat)
    decreases n
  {
    n > 0 ==>
      var after := Run(c, db, chunks, model).0;
      after.writes > db.writes && EachWrites(c, after, chunks, model, n - 1)
  }

  /**
   A batch with a host document whose indices leave a gap or repeat never settles: unless the table
   happens to match it from the start, every further import writes again.
  */
  lemma {:induction false} RestlessNeverSettles(
    c: Crypto, db: Db, chunks: Batch, model: string, d: DocId, n: nat)
    requires Restless(chunks, d) && !Matched(c, db.table, chunks, d, model)
    ensures EachWrites(c, db, chunks, model, n)
    decreases n
  {
    if n > 0 {
      RestlessImport(c, db, chunks, model, d);
      RestlessNeverSettles(c, Run(c, db, chunks, model).0, chunks, model, d, n - 1);
    }
  }

  /** Two sources with one id make the regrouped chunks of that id repeat an index. */
  lemma SharedIdIsUnnumbered(c: Crypto, xs: Batch, x: MappedChunk, y: MappedChunk)
    requires x in Regroup(c, xs) && y in Regroup(c, xs) && x.documentId == y.documentId && x.source != y.source
    ensures !NumberedGroup(Regroup(c, xs), x.documentId)
  {
    var r, d := Regroup(c, xs), x.documentId;
    var x0 := FirstOfSource(c, xs, x);
    var y0 := FirstOfSource(c, xs, y);
    var ordered := Sorted(Drafts(r, d), ByIndex);
    var i := PositionOf(r, d, x0);
    var j := PositionOf(r, d, y0);
    assert ordered[i].source != ordered[j].source;
  }

  lemma PositionOf(chunks: Batch, d: DocId, x: MappedChunk) returns (i: nat)
    requires x in chunks && x.documentId == d
    ensures i < |Sorted(Drafts(chunks, d), ByIndex)| && Sorted(Drafts(chunks, d), ByIndex)[i] == AsDraft(x)
  {
    DocumentOf(chunks, x);
    var group := Group(chunks, d);
    var j :| 0 <= j < |group| && group[j] == x;
    assert Drafts(chunks, d)[j] in multiset(Drafts(chunks, d));
    assert AsDraft(x) in multiset(Sorted(Drafts(chunks, d), ByIndex));
    i :| 0 <= i < |Sorted(Drafts(chunks, d), ByIndex)| && Sorted(Drafts(chunks, d), ByIndex)[i] == AsDraft(x);
  }

  /** Chunks of host sources only, two of them with one id, regroup to a restless batch. */
  lemma SharedIdIsRestless(c: Crypto, xs: Batch, i: nat, j: nat)
    requires i < |xs| && j < |xs| && xs[i].source != xs[j].source
    requires IdOf(c, xs[i].source) == IdOf(c, xs[j].source)
    requires forall x | x in xs :: !IsFallbackSource(x.source)
    ensures Restless(Regroup(c, xs), IdOf(c, xs[i].source))
  {
    var batch, d := Regroup(c, xs), IdOf(c, xs[i].source);
    var x := RegroupKeepsSource(c, xs, xs[i]);
    var y := RegroupKeepsSource(c, xs, xs[j]);
    RegroupIds(c, xs);
    SharedIdIsUnnumbered(c, xs, x, y);
    DocumentOf(batch, x);
    var first := Group(batch, d)[0];
    assert first in Group(batch, d);
    var origin := RegroupOrigin(c, xs, first);
    assert first.source == Bare(first).source == Bare(origin).source;
  }

  lemma SpellingsAreRestless(c: Crypto, xs: Batch, targets: seq<string>, i: nat, j: nat)
    requires |xs| == |targets| && forall k | 0 <= k < |xs| :: xs[k].source == targets[k]
    requires i < |xs| && j < |xs| && targets[i] != targets[j] && Text.Strip(targets[i]) == Text.Strip(targets[j])
    requires forall target | target in targets :: !IsFallbackSource(target)
    ensures Restless(Regroup(c, xs), IdOf(c, targets[i]))
  {
    forall x | x in xs
      ensures !IsFallbackSource(x.source)
    {
      var k :| 0 <= k < |xs| && xs[k] == x;
      assert targets[k] in targets;
    }
    SharedIdIsRestless(c, xs, i, j);
  }

  /**
   If an override map spells one host path in two ways, the remapped batch never settles: unless the
   table happens to match it, every import of it writes.
  */
  lemma TwoSpellingsNeverSettle(c: Crypto, db: Db, chunks: Batch, overrides: map<string, string>,
                                targets: seq<string>, i: nat, j: nat, batch: Batch, model: string, n: nat)
    requires RemapSources(c, chunks, overrides) == Ok(batch) && Targets(chunks, overrides) == targets
    requires forall target | target in targets :: !IsFallbackSource(target)
    requires i < |targets| && j < |targets|
    requires targets[i] != targets[j] && Text.Strip(targets[i]) == Text.Strip(targets[j])
    requires !Matched(c, db.table, batch, IdOf(c, targets[i]), model)
    ensures EachWrites(c, db, batch, model, n)
  {
    MovedGoToTargets(c, chunks, overrides);
    SpellingsAreRestless(c, Moved(c, chunks, overrides), targets, i, j);
    RestlessNeverSettles(c, db, batch, model, IdOf(c, targets[i]), n);
  }

  lemma EmptyIsUnmatched(c: Crypto, t: Table, chunks: Batch, d: DocId, model: string)
    requires t == map[]
    ensures !Matched(c, t, chunks, d, model)
  {
    IndicesMeaning(t, d);
    assert Indices(t, d) == {};
  }

  lemma TwoTargets(x: MappedChunk, y: MappedChunk, chunks: Batch, overrides: map<string, string>)
    requires |chunks| == 2 && chunks[0] == x && chunks[1] == y && x.source in overrides && y.source in overrides
    ensures Targets(chunks, overrides) == [overrides[x.source], overrides[y.source]]
  {
    ExactOverride(x, overrides);
    ExactOverride(y, overrides);
  }

  lemma TwoVisibleTargets(x: MappedChunk, y: MappedChunk, chunks: Batch, overrides: map<string, string>)
    requires |chunks| == 2 && chunks[0] == x && chunks[1] == y && x.source in overrides && y.source in overrides
    requires Text.Strip(overrides[x.source]) != "" && Text.Strip(overrides[y.source]) != ""
    ensures !AnyBlank(chunks, overrides)
  {
    ExactOverride(x, overrides);
    ExactOverride(y, overrides);
    assert forall z | z in chunks :: z == x || z == y;
  }

  lemma TwoExactTargets(chunks: Batch, overrides: map<string, string>, p: string, q: string)
    requires |chunks| == 2 && chunks[0].source in overrides && chunks[1].source in overrides
    requires overrides[chunks[0].source] == p && overrides[chunks[1].source] == q
    requires Text.Strip(p) != "" && Text.Strip(q) != ""
    ensures Targets(chunks, overrides) == [p, q] && !AnyBlank(chunks, overrides)
  {
    TwoTargets(chunks[0], chunks[1], chunks, overrides);
    TwoVisibleTargets(chunks[0], chunks[1], chunks, overrides);
  }

  /** The targets are host paths, and the first two are spellings of one path. */
  ghost predicate SpelledTwice(targets: seq<string>) {
    && |targets| >= 2 && targets[0] != targets[1] && Text.Strip(targets[0]) == Text.Strip(targets[1])
    && forall target | target in targets :: !IsFallbackSource(target)
  }

  /** Whatever such chunks remap to, importing it into an empty table writes forever. */
  lemma SpelledTwiceNeverSettles(c: Crypto, db: Db, chunks: Batch, overrides: map<string, string>,
                                 model: string, n: nat)
    requires db.table == map[] && SpelledTwice(Targets(chunks, overrides)) && !AnyBlank(chunks, overrides)
    ensures RemapSources(c, chunks, overrides).Ok?
    ensures EachWrites(c, db, RemapSources(c, chunks, overrides).value, model, n)
  {
    var batch, targets := RemapSources(c, chunks, overrides).value, Targets(chunks, overrides);
    EmptyIsUnmatched(c, db.table, batch, IdOf(c, targets[0]), model);
    TwoSpellingsNeverSettle(c, db, chunks, overrides, targets, 0, 1, batch, model, n);
  }

  lemma PathsSpelledTwice(targets: seq<string>, path: string)
    requires Canonical(path) && !IsFallbackSource(path) && !IsFallbackSource(path + " ")
    requires targets == [path, path + " "]
    ensures SpelledTwice(targets) && Text.Strip(path) != "" && Text.Strip(path + " ") != ""
  {
    Text.StripOfTrimmed(path);
    Text.StripOfPadded(path);
  }

  function ChunkFrom(source: string): MappedChunk {
    MappedChunk(DocId(""), 0, source, source, source, map[], [])
  }

  /** The chunks of two files, with an override map that sends them to one path with and without a blank. */
  lemma PaddedInput(a: string, b: string, path: string) returns (chunks: Batch, overrides: map<string, string>)
    requires a != b && Canonical(path) && !IsFallbackSource(path) && !IsFallbackSource(path + " ")
    ensures chunks == [ChunkFrom(a), ChunkFrom(b)] && overrides == map[a := path, b := path + " "]
    ensures SpelledTwice(Targets(chunks, overrides)) && !AnyBlank(chunks, overrides)
  {
    var padded := path + " ";
    chunks, overrides := [ChunkFrom(a), ChunkFrom(b)], map[a := path, b := padded];
    PathsSpelledTwice([path, padded], path);
    TwoExactTargets(chunks, overrides, path, padded);
  }

  lemma SlashPathIsCanonical()
    ensures Canonical("/a") && !IsFallbackSource("/a") && !IsFallbackSource("/a" + " ")
  {}

  /** For instance one trailing blank: the two files `a` and `b`, sent to "/a" and to "/a ". */
  lemma PaddedPathNeverSettles(c: Crypto, db: Db, a: string, b: string, model: string, n: nat)
    returns (chunks: Batch, overrides: map<string, string>)
    requires db.table == map[] && a != b
    ensures chunks == [ChunkFrom(a), ChunkFrom(b)] && overrides == map[a := "/a", b := "/a" + " "]
    ensures RemapSources(c, chunks, overrides).Ok?
    ensures EachWrites(c, db, RemapSources(c, chunks, overrides).value, model, n)
  {
    SlashPathIsCanonical();
    chunks, overrides := PaddedInput(a, b, "/a");
    SpelledTwiceNeverSettles(c, db, chunks, overrides, model, n);
  }
}
