/** Turning Langflow rows into numbered chunks, and remapping their sources to host paths. */
module LangflowMapping {
  import opened Wrappers
  import opened DocumentTable
  import opened Grouping
  import Text

  datatype LangflowRow = LangflowRow(
    id: string,
    document: string,
    embedding: seq<real>,
    cmetadata: Option<Metadata>)

  datatype MappedChunk = MappedChunk(
    documentId: DocId,
    chunkIndex: int,
    title: string,
    content: string,
    source: string,
    metadata: Metadata,
    embedding: seq<real>)

  /** `parent_document_id`: None stands for its ValueError. */
  function ParentDocumentId(c: Crypto, source: Option<string>, fallback: Option<DocId>): Option<DocId> {
    if source.Some? && Text.Strip(source.value) != "" then Some(c.uuid5(Text.Strip(source.value))) else fallback
  }

  function IdOf(c: Crypto, source: string): DocId {
    c.uuid5(Text.Strip(source))
  }

  function MetadataOf(row: LangflowRow): Metadata {
    if row.cmetadata.Some? then row.cmetadata.value else map[]
  }

  /** A metadata field that holds a string with something other than white space in it. */
  function TextField(metadata: Metadata, field: string): Option<string> {
    if field in metadata && metadata[field].JsonText? && Text.Strip(metadata[field].text) != ""
    then Some(Text.Strip(metadata[field].text)) else None
  }

  function SourceOf(row: LangflowRow): string {
    var named := TextField(MetadataOf(row), "source");
    if named.Some? then named.value else "langflow:" + row.id
  }

  function ChunkTitle(metadata: Metadata, source: string): string {
    var title := TextField(metadata, "title");
    if title.Some? && title.value != "Untitled" then title.value
    else if IsFallbackSource(source) then "Untitled"
    else if Text.BaseName(source) == "" then "Untitled"
    else Text.BaseName(source)
  }

  function ChunkOf(c: Crypto, row: LangflowRow, index: int): MappedChunk {
    MappedChunk(IdOf(c, SourceOf(row)), index, ChunkTitle(MetadataOf(row), SourceOf(row)),
                row.document, SourceOf(row), MetadataOf(row), row.embedding)
  }

  function BySource(chunk: MappedChunk): string {
    chunk.source
  }

  function ByDocument(chunk: MappedChunk): DocId {
    chunk.documentId
  }

  /** One source's chunks, numbered from zero. */
  function Number(c: Crypto, source: string, items: seq<MappedChunk>): (r: seq<MappedChunk>)
    ensures |r| == |items|
    ensures forall i | 0 <= i < |r| :: r[i] == items[i].(documentId := IdOf(c, source), chunkIndex := i)
  {
    seq(|items|, i requires 0 <= i < |items| => items[i].(documentId := IdOf(c, source), chunkIndex := i))
  }

  function RegroupKeys(c: Crypto, xs: seq<MappedChunk>, ks: seq<string>): seq<MappedChunk> {
    if ks == [] then []
    else
      var n := |ks| - 1;
      RegroupKeys(c, xs, ks[..n]) + Number(c, ks[n], Bucket(xs, BySource, ks[n]))
  }

  /** Chunks filed by source, each source numbered from zero. */
  function Regroup(c: Crypto, xs: seq<MappedChunk>): seq<MappedChunk> {
    RegroupKeys(c, xs, Keys(xs, BySource))
  }

  function MapLangflowRows(c: Crypto, rows: seq<LangflowRow>): seq<MappedChunk> {
    Regroup(c, Drafted(c, rows))
  }

  /** The chunks of the rows before they are numbered. */
  function Drafted(c: Crypto, rows: seq<LangflowRow>): seq<MappedChunk> {
    Map(row => ChunkOf(c, row, 0), rows)
  }

  function SourceKeys(chunk: MappedChunk): seq<string> {
    [chunk.source, Text.BaseName(chunk.source), chunk.title]
    + FieldKeys(chunk.metadata, "source") + FieldKeys(chunk.metadata, "file_path")
    + FieldKeys(chunk.metadata, "filename") + FieldKeys(chunk.metadata, "name")
  }

  function FieldKeys(metadata: Metadata, field: string): seq<string> {
    match TextField(metadata, field)
    case None => []
    case Some(value) => [value, Text.BaseName(value)]
  }

  function FirstOverride(keys: seq<string>, overrides: map<string, string>): Option<string> {
    if keys == [] then None
    else if keys[0] in overrides then Some(overrides[keys[0]])
    else FirstOverride(keys[1..], overrides)
  }

  function OverrideSource(chunk: MappedChunk, overrides: map<string, string>): string {
    match FirstOverride(SourceKeys(chunk), overrides)
    case None => chunk.source
    case Some(source) => source
  }

  function Override(c: Crypto, chunk: MappedChunk, overrides: map<string, string>): MappedChunk {
    var source := OverrideSource(chunk, overrides);
    chunk.(source := source, documentId := IdOf(c, source),
           title := if source != chunk.source then ChunkTitle(chunk.metadata, source) else chunk.title)
  }

  datatype RemapError = BlankSource

  predicate Blank(chunk: MappedChunk, overrides: map<string, string>) {
    Text.Strip(OverrideSource(chunk, overrides)) == ""
  }

  predicate AnyBlank(chunks: seq<MappedChunk>, overrides: map<string, string>) {
    exists x | x in chunks :: Blank(x, overrides)
  }

  /** A blank source has no document id, so one such chunk fails the whole call. */
  function RemapSources(c: Crypto, chunks: seq<MappedChunk>, overrides: map<string, string>)
    : Result<seq<MappedChunk>, RemapError>
  {
    if AnyBlank(chunks, overrides) then Err(BlankSource)
    else Ok(Regroup(c, Moved(c, chunks, overrides)))
  }

  // ---------------------------------------------------------------- what regrouping does

  lemma NumberedPartIsUniform(c: Crypto, xs: seq<MappedChunk>, k: string)
    ensures forall x | x in Number(c, k, Bucket(xs, BySource, k)) :: BySource(x) == k
  {}

  lemma {:induction false} RegroupKeysBucket(c: Crypto, xs: seq<MappedChunk>, ks: seq<string>, s: string)
    requires Distinct(ks)
    ensures Bucket(RegroupKeys(c, xs, ks), BySource, s)
            == if s in ks then Number(c, s, Bucket(xs, BySource, s)) else []
  {
    if ks != [] {
      var n := |ks| - 1;
      assert ks == ks[..n] + [ks[n]];
      var part := Number(c, ks[n], Bucket(xs, BySource, ks[n]));
      RegroupKeysBucket(c, xs, ks[..n], s);
      BucketOfSum(RegroupKeys(c, xs, ks[..n]), part, BySource, s);
      NumberedPartIsUniform(c, xs, ks[n]);
      BucketOfUniform(part, BySource, ks[n]);
    }
  }

  /** Each source's chunks come out in their input order, numbered from zero. */
  lemma RegroupNumbersEachSource(c: Crypto, xs: seq<MappedChunk>, s: string)
    ensures Bucket(Regroup(c, xs), BySource, s) == Number(c, s, Bucket(xs, BySource, s))
  {
    KeysAreDistinct(xs, BySource);
    RegroupKeysBucket(c, xs, Keys(xs, BySource), s);
  }

  /** A chunk's index is its rank among the chunks of its source. */
  lemma IndexIsRank(c: Crypto, xs: seq<MappedChunk>, j: nat)
    requires j < |Regroup(c, xs)|
    ensures var r := Regroup(c, xs);
            && r[j].chunkIndex == |Bucket(r[..j], BySource, r[j].source)|
            && r[j].documentId == IdOf(c, r[j].source)
  {
    var r := Regroup(c, xs);
    BucketPosition(r, BySource, j);
    RegroupNumbersEachSource(c, xs, r[j].source);
  }

  /** A chunk without the two fields that regrouping assigns. */
  function Bare(chunk: MappedChunk): MappedChunk {
    chunk.(documentId := DocId(""), chunkIndex := 0)
  }

  /** Nothing is lost, duplicated or altered apart from the id and the index. */
  lemma RegroupPermutes(c: Crypto, xs: seq<MappedChunk>)
    ensures multiset(Map(Bare, Regroup(c, xs))) == multiset(Map(Bare, xs))
  {
    var r := Regroup(c, xs);
    forall x: MappedChunk
      ensures multiset(Map(Bare, r))[x] == multiset(Map(Bare, xs))[x]
    {
      var s := x.source;
      GroupingOfImages(r, Bare, BySource, BySource, s);
      GroupingOfImages(xs, Bare, BySource, BySource, s);
      RegroupNumbersEachSource(c, xs, s);
      assert Map(Bare, Number(c, s, Bucket(xs, BySource, s))) == Map(Bare, Bucket(xs, BySource, s));
      BucketCounts(Map(Bare, r), BySource, x);
      BucketCounts(Map(Bare, xs), BySource, x);
    }
  }

  lemma {:induction false} RegroupKeysOrder(c: Crypto, xs: seq<MappedChunk>, ks: seq<string>)
    requires Distinct(ks)
    requires forall k | k in ks :: Bucket(xs, BySource, k) != []
    ensures Keys(RegroupKeys(c, xs, ks), BySource) == ks
  {
    if ks != [] {
      var n := |ks| - 1;
      assert ks == ks[..n] + [ks[n]];
      var bucket := Bucket(xs, BySource, ks[n]);
      var part := Number(c, ks[n], bucket);
      RegroupKeysOrder(c, xs, ks[..n]);
      NumberedPartIsUniform(c, xs, ks[n]);
      KeysOfUniformSuffix(RegroupKeys(c, xs, ks[..n]), part, BySource, ks[n]);
    }
  }

  lemma {:induction false} RegroupKeysAgain(c: Crypto, xs: seq<MappedChunk>, ks: seq<string>)
    ensures RegroupKeys(c, Regroup(c, xs), ks) == RegroupKeys(c, xs, ks)
  {
    if ks != [] {
      var n := |ks| - 1;
      RegroupKeysAgain(c, xs, ks[..n]);
      RegroupNumbersEachSource(c, xs, ks[n]);
      var bucket := Bucket(xs, BySource, ks[n]);
      assert Number(c, ks[n], Number(c, ks[n], bucket)) == Number(c, ks[n], bucket);
    }
  }

  lemma RegroupIsIdempotent(c: Crypto, xs: seq<MappedChunk>)
    ensures Regroup(c, Regroup(c, xs)) == Regroup(c, xs)
  {
    KeysAreDistinct(xs, BySource);
    RegroupKeysOrder(c, xs, Keys(xs, BySource));
    RegroupKeysAgain(c, xs, Keys(xs, BySource));
  }

  lemma RegroupIds(c: Crypto, xs: seq<MappedChunk>)
    ensures forall x | x in Regroup(c, xs) :: x.documentId == IdOf(c, x.source)
  {
    var r := Regroup(c, xs);
    forall x | x in r
      ensures x.documentId == IdOf(c, x.source)
    {
      var j :| 0 <= j < |r| && r[j] == x;
      IndexIsRank(c, xs, j);
    }
  }

  lemma RegroupOrigin(c: Crypto, xs: seq<MappedChunk>, x: MappedChunk) returns (y: MappedChunk)
    requires x in Regroup(c, xs)
    ensures y in xs && Bare(y) == Bare(x)
  {
    var r := Regroup(c, xs);
    var j :| 0 <= j < |r| && r[j] == x;
    RegroupPermutes(c, xs);
    assert Map(Bare, r)[j] == Bare(x);
    assert Bare(x) in multiset(Map(Bare, xs));
    var i :| 0 <= i < |xs| && Map(Bare, xs)[i] == Bare(x);
    y := xs[i];
  }

  // ---------------------------------------------------------------- numbering by document

  /** Under every document id the indices run 0, 1, 2, ... in list order. */
  ghost predicate NumberedByDocument(xs: seq<MappedChunk>) {
    forall d: DocId, i: nat | i < |Bucket(xs, ByDocument, d)| :: Bucket(xs, ByDocument, d)[i].chunkIndex == i
  }

  /** No two sources of the chunks share a document id. */
  ghost predicate SourcesSeparated(c: Crypto, xs: seq<MappedChunk>) {
    forall x, y | x in xs && y in xs && IdOf(c, x.source) == IdOf(c, y.source) :: x.source == y.source
  }

  ghost predicate IdsSeparated(xs: seq<MappedChunk>) {
    forall x, y | x in xs && y in xs && x.documentId == y.documentId :: x.source == y.source
  }

  lemma RegroupKeepsSource(c: Crypto, xs: seq<MappedChunk>, y: MappedChunk) returns (x: MappedChunk)
    requires y in xs
    ensures x in Regroup(c, xs) && x.source == y.source
  {
    RegroupNumbersEachSource(c, xs, y.source);
    assert y in Bucket(xs, BySource, y.source);
    x := Bucket(Regroup(c, xs), BySource, y.source)[0];
    assert x in Bucket(Regroup(c, xs), BySource, y.source);
  }

  /** Regrouped ids are separated exactly when the sources of the input are. */
  lemma SeparatedByInput(c: Crypto, xs: seq<MappedChunk>)
    ensures IdsSeparated(Regroup(c, xs)) <==> SourcesSeparated(c, xs)
  {
    var r := Regroup(c, xs);
    RegroupIds(c, xs);
    if SourcesSeparated(c, xs) {
      forall x, y | x in r && y in r && x.documentId == y.documentId
        ensures x.source == y.source
      {
        var x0 := RegroupOrigin(c, xs, x);
        var y0 := RegroupOrigin(c, xs, y);
        assert x.source == Bare(x).source == Bare(x0).source && y.source == Bare(y).source == Bare(y0).source;
      }
    }
    if IdsSeparated(r) {
      forall x, y | x in xs && y in xs && IdOf(c, x.source) == IdOf(c, y.source)
        ensures x.source == y.source
      {
        var x0 := RegroupKeepsSource(c, xs, x);
        var y0 := RegroupKeepsSource(c, xs, y);
      }
    }
  }

  lemma FirstOfSource(c: Crypto, xs: seq<MappedChunk>, x: MappedChunk) returns (first: MappedChunk)
    requires x in Regroup(c, xs)
    ensures first in Regroup(c, xs) && first.source == x.source && first.chunkIndex == 0
    ensures first.documentId == x.documentId
  {
    var bucket := Bucket(Regroup(c, xs), BySource, x.source);
    assert x in bucket;
    first := bucket[0];
    assert first in bucket;
    RegroupNumbersEachSource(c, xs, x.source);
    RegroupIds(c, xs);
  }

  lemma SameIdIffSameSource(c: Crypto, xs: seq<MappedChunk>, x: MappedChunk)
    requires IdsSeparated(Regroup(c, xs)) && x in Regroup(c, xs)
    ensures forall y | y in Regroup(c, xs) :: y.documentId == x.documentId <==> y.source == x.source
  {
    RegroupIds(c, xs);
  }

  lemma SeparatedIsNumbered(c: Crypto, xs: seq<MappedChunk>)
    requires IdsSeparated(Regroup(c, xs))
    ensures NumberedByDocument(Regroup(c, xs))
  {
    var r := Regroup(c, xs);
    forall d: DocId, i: nat | i < |Bucket(r, ByDocument, d)|
      ensures Bucket(r, ByDocument, d)[i].chunkIndex == i
    {
      var x := Bucket(r, ByDocument, d)[i];
      assert x in Bucket(r, ByDocument, d);
      SameIdIffSameSource(c, xs, x);
      BucketsAgree(r, ByDocument, d, BySource, x.source);
      RegroupNumbersEachSource(c, xs, x.source);
    }
  }

  lemma NumberedIsSeparated(c: Crypto, xs: seq<MappedChunk>)
    requires NumberedByDocument(Regroup(c, xs))
    ensures IdsSeparated(Regroup(c, xs))
  {
    var r := Regroup(c, xs);
    forall x, y | x in r && y in r && x.documentId == y.documentId
      ensures x.source == y.source
    {
      var x0 := FirstOfSource(c, xs, x);
      var y0 := FirstOfSource(c, xs, y);
      var bucket := Bucket(r, ByDocument, x.documentId);
      assert x0 in bucket && y0 in bucket;
      var i :| 0 <= i < |bucket| && bucket[i] == x0;
      var j :| 0 <= j < |bucket| && bucket[j] == y0;
      assert i == 0 && j == 0;
    }
  }

  /** Documents are numbered without gap or repetition exactly when no two sources of the input share an id. */
  lemma NumberedIffSeparated(c: Crypto, xs: seq<MappedChunk>)
    ensures NumberedByDocument(Regroup(c, xs)) <==> SourcesSeparated(c, xs)
  {
    SeparatedByInput(c, xs);
    if SourcesSeparated(c, xs) {
      SeparatedIsNumbered(c, xs);
    }
    if NumberedByDocument(Regroup(c, xs)) {
      NumberedIsSeparated(c, xs);
    }
  }

  /** A source name as `parent_document_id` keys it. */
  predicate Canonical(source: string) {
    source != "" && Text.Trimmed(source)
  }

  ghost predicate InjectiveOnNames(c: Crypto) {
    forall s, t | Canonical(s) && Canonical(t) && c.uuid5(s) == c.uuid5(t) :: s == t
  }

  ghost predicate CanonicalSources(xs: seq<MappedChunk>) {
    forall x | x in xs :: Canonical(x.source)
  }

  lemma CanonicalMeansSeparated(c: Crypto, xs: seq<MappedChunk>)
    requires InjectiveOnNames(c) && CanonicalSources(xs)
    ensures SourcesSeparated(c, xs)
  {
    forall x | x in xs
      ensures Canonical(x.source) && IdOf(c, x.source) == c.uuid5(x.source)
    {
      Text.StripOfTrimmed(x.source);
    }
  }

  lemma CanonicalStaysCanonical(c: Crypto, xs: seq<MappedChunk>)
    requires CanonicalSources(xs)
    ensures CanonicalSources(Regroup(c, xs))
  {
    forall x | x in Regroup(c, xs)
      ensures Canonical(x.source)
    {
      var y := RegroupOrigin(c, xs, x);
      assert Canonical(y.source) && x.source == Bare(x).source == Bare(y).source;
    }
  }

  lemma CanonicalMeansNumbered(c: Crypto, xs: seq<MappedChunk>)
    requires InjectiveOnNames(c) && CanonicalSources(xs)
    ensures NumberedByDocument(Regroup(c, xs))
    ensures CanonicalSources(Regroup(c, xs))
  {
    CanonicalStaysCanonical(c, xs);
    CanonicalMeansSeparated(c, xs);
    NumberedIffSeparated(c, xs);
  }

  lemma SourceIsCanonical(row: LangflowRow)
    requires Text.Trimmed("langflow:" + row.id)
    ensures Canonical(SourceOf(row))
  {
    if TextField(MetadataOf(row), "source").Some? {
      NamedFieldIsTrimmed(MetadataOf(row), "source");
    }
  }

  lemma MappedSourcesAreCanonical(c: Crypto, rows: seq<LangflowRow>)
    requires forall row | row in rows :: Text.Trimmed("langflow:" + row.id)
    ensures CanonicalSources(Drafted(c, rows))
  {
    forall x | x in Drafted(c, rows)
      ensures Canonical(x.source)
    {
      var i :| 0 <= i < |rows| && Drafted(c, rows)[i] == x;
      assert rows[i] in rows && x.source == SourceOf(rows[i]);
      SourceIsCanonical(rows[i]);
    }
  }

  lemma {:induction false} FirstOverrideIsValue(keys: seq<string>, overrides: map<string, string>)
    ensures FirstOverride(keys, overrides).Some? ==> FirstOverride(keys, overrides).value in overrides.Values
  {
    if keys != [] && keys[0] !in overrides {
      FirstOverrideIsValue(keys[1..], overrides);
    }
  }

  lemma OverrideIsCanonical(chunk: MappedChunk, overrides: map<string, string>)
    requires Canonical(chunk.source)
    requires forall v | v in overrides.Values :: Canonical(v)
    ensures Canonical(OverrideSource(chunk, overrides))
    ensures !Blank(chunk, overrides)
  {
    FirstOverrideIsValue(SourceKeys(chunk), overrides);
    Text.StripOfTrimmed(OverrideSource(chunk, overrides));
  }

  function Moved(c: Crypto, chunks: seq<MappedChunk>, overrides: map<string, string>): seq<MappedChunk> {
    Map(x => Override(c, x, overrides), chunks)
  }

  lemma MovedSourcesAreCanonical(c: Crypto, chunks: seq<MappedChunk>, overrides: map<string, string>)
    requires CanonicalSources(chunks)
    requires forall v | v in overrides.Values :: Canonical(v)
    ensures CanonicalSources(Moved(c, chunks, overrides))
  {
    forall i | 0 <= i < |chunks|
      ensures Canonical(Moved(c, chunks, overrides)[i].source)
    {
      assert chunks[i] in chunks;
      OverrideIsCanonical(chunks[i], overrides);
    }
  }

  /**
   With trimmed, non-blank override values, remapping succeeds and numbers every document
   0, 1, 2, ...
  */
  lemma RemapNumbersDocuments(c: Crypto, chunks: seq<MappedChunk>, overrides: map<string, string>)
    requires InjectiveOnNames(c) && CanonicalSources(chunks)
    requires forall v | v in overrides.Values :: Canonical(v)
    ensures RemapSources(c, chunks, overrides).Ok?
    ensures NumberedByDocument(RemapSources(c, chunks, overrides).value)
    ensures CanonicalSources(RemapSources(c, chunks, overrides).value)
    ensures forall x | x in RemapSources(c, chunks, overrides).value :: x.documentId == IdOf(c, x.source)
  {
    NothingIsBlank(chunks, overrides);
    MovedSourcesAreCanonical(c, chunks, overrides);
    CanonicalMeansNumbered(c, Moved(c, chunks, overrides));
    RegroupIds(c, Moved(c, chunks, overrides));
  }

  lemma NothingIsBlank(chunks: seq<MappedChunk>, overrides: map<string, string>)
    requires CanonicalSources(chunks)
    requires forall v | v in overrides.Values :: Canonical(v)
    ensures !AnyBlank(chunks, overrides)
  {
    forall x | x in chunks
      ensures !Blank(x, overrides)
    {
      OverrideIsCanonical(x, overrides);
    }
  }

  /** Where remapping sends each chunk. */
  function Targets(chunks: seq<MappedChunk>, overrides: map<string, string>): seq<string> {
    Map(x => OverrideSource(x, overrides), chunks)
  }

  /** No two of the names are keyed by one document id. */
  ghost predicate NamesSeparated(c: Crypto, names: seq<string>) {
    forall s, t | s in names && t in names && IdOf(c, s) == IdOf(c, t) :: s == t
  }

  lemma SourcesAreNames(c: Crypto, xs: seq<MappedChunk>)
    ensures SourcesSeparated(c, xs) <==> NamesSeparated(c, Map(BySource, xs))
  {
    var names := Map(BySource, xs);
    assert forall x | x in xs :: x.source in names by {
      forall x | x in xs
        ensures x.source in names
      {
        var i :| 0 <= i < |xs| && xs[i] == x;
        assert names[i] == x.source;
      }
    }
    assert forall i | 0 <= i < |xs| :: names[i] == xs[i].source && xs[i] in xs;
  }

  /** For any override map, remapping numbers every document 0, 1, 2, ... iff its targets are separated. */
  lemma RemapNumbersIff(c: Crypto, chunks: seq<MappedChunk>, overrides: map<string, string>)
    requires RemapSources(c, chunks, overrides).Ok?
    ensures NumberedByDocument(RemapSources(c, chunks, overrides).value)
            <==> NamesSeparated(c, Targets(chunks, overrides))
  {
    var moved := Moved(c, chunks, overrides);
    NumberedIffSeparated(c, moved);
    SourcesAreNames(c, moved);
    MovedGoToTargets(c, chunks, overrides);
  }

  lemma MovedGoToTargets(c: Crypto, chunks: seq<MappedChunk>, overrides: map<string, string>)
    ensures var moved, targets := Moved(c, chunks, overrides), Targets(chunks, overrides);
            && |moved| == |targets| == |chunks| && Map(BySource, moved) == targets
            && forall k | 0 <= k < |moved| :: moved[k].source == targets[k]
  {}

  lemma ExactOverride(chunk: MappedChunk, overrides: map<string, string>)
    requires chunk.source in overrides
    ensures OverrideSource(chunk, overrides) == overrides[chunk.source]
    ensures Blank(chunk, overrides) <==> Text.Strip(overrides[chunk.source]) == ""
  {
    assert SourceKeys(chunk)[0] == chunk.source;
  }

  lemma NamesCollide(c: Crypto, names: seq<string>, i: nat, j: nat)
    requires i < |names| && j < |names| && names[i] != names[j] && Text.Strip(names[i]) == Text.Strip(names[j])
    ensures !NamesSeparated(c, names)
  {
    assert names[i] in names && names[j] in names;
  }

  lemma TargetsCollide(c: Crypto, chunks: seq<MappedChunk>, overrides: map<string, string>, i: nat, j: nat)
    requires RemapSources(c, chunks, overrides).Ok? && i < |chunks| && j < |chunks|
    requires var targets := Targets(chunks, overrides);
             targets[i] != targets[j] && Text.Strip(targets[i]) == Text.Strip(targets[j])
    ensures !NumberedByDocument(RemapSources(c, chunks, overrides).value)
  {
    RemapNumbersIff(c, chunks, overrides);
    NamesCollide(c, Targets(chunks, overrides), i, j);
  }

  lemma ExactTargets(chunks: seq<MappedChunk>, overrides: map<string, string>)
    requires forall x | x in chunks :: x.source in overrides && Text.Strip(overrides[x.source]) != ""
    ensures forall i | 0 <= i < |chunks| ::
              chunks[i].source in overrides && Targets(chunks, overrides)[i] == overrides[chunks[i].source]
    ensures !AnyBlank(chunks, overrides)
  {
    forall x | x in chunks
      ensures OverrideSource(x, overrides) == overrides[x.source] && !Blank(x, overrides)
    {
      ExactOverride(x, overrides);
    }
    assert forall i | 0 <= i < |chunks| :: chunks[i] in chunks;
  }

  /** An override map that spells one host path in two ways makes chunks of one document share an index. */
  lemma TwoSpellingsCollide(c: Crypto, chunks: seq<MappedChunk>, overrides: map<string, string>, i: nat, j: nat)
    requires i < |chunks| && j < |chunks|
    requires forall x | x in chunks :: x.source in overrides && Text.Strip(overrides[x.source]) != ""
    requires overrides[chunks[i].source] != overrides[chunks[j].source]
    requires Text.Strip(overrides[chunks[i].source]) == Text.Strip(overrides[chunks[j].source])
    ensures RemapSources(c, chunks, overrides).Ok?
    ensures !NumberedByDocument(RemapSources(c, chunks, overrides).value)
  {
    ExactTargets(chunks, overrides);
    TargetsCollide(c, chunks, overrides, i, j);
  }

  /** A path and the same path with a trailing blank are such spellings. */
  lemma PaddedPathSharesId(c: Crypto, path: string)
    requires Canonical(path)
    ensures path != path + " " && Text.Strip(path + " ") == Text.Strip(path) != ""
    ensures IdOf(c, path + " ") == IdOf(c, path)
  {
    Text.StripOfTrimmed(path);
    Text.StripOfPadded(path);
  }

  lemma {:induction false} NoOverride(keys: seq<string>)
    ensures FirstOverride(keys, map[]) == None
  {
    if keys != [] {
      NoOverride(keys[1..]);
    }
  }

  lemma SourceIsNotBlank(row: LangflowRow)
    ensures Text.Strip(SourceOf(row)) != ""
  {
    var named := TextField(MetadataOf(row), "source");
    if named.Some? {
      NamedFieldIsTrimmed(MetadataOf(row), "source");
      Text.StripOfTrimmed(named.value);
    } else {
      Text.VisibleIsNotBlank(SourceOf(row));
    }
  }

  lemma NamedFieldIsTrimmed(metadata: Metadata, field: string)
    requires TextField(metadata, field).Some?
    ensures Canonical(TextField(metadata, field).value)
  {
    Text.StripIsTrimmed(metadata[field].text);
  }

  lemma MappedChunkIsSettled(c: Crypto, rows: seq<LangflowRow>, x: MappedChunk)
    requires x in MapLangflowRows(c, rows)
    ensures Override(c, x, map[]) == x && !Blank(x, map[])
  {
    NoOverride(SourceKeys(x));
    RegroupIds(c, Drafted(c, rows));
    var y := RegroupOrigin(c, Drafted(c, rows), x);
    var i :| 0 <= i < |rows| && Drafted(c, rows)[i] == y;
    assert x.source == Bare(x).source == Bare(y).source == SourceOf(rows[i]);
    SourceIsNotBlank(rows[i]);
  }

  /** Remapping freshly mapped rows with no overrides changes nothing. */
  lemma RemapWithoutOverrides(c: Crypto, rows: seq<LangflowRow>)
    ensures RemapSources(c, MapLangflowRows(c, rows), map[]) == Ok(MapLangflowRows(c, rows))
  {
    var mapped := MapLangflowRows(c, rows);
    forall x | x in mapped
      ensures Override(c, x, map[]) == x && !Blank(x, map[])
    {
      MappedChunkIsSettled(c, rows, x);
    }
    assert Moved(c, mapped, map[]) == mapped;
    RegroupIsIdempotent(c, Drafted(c, rows));
  }

  // ---------------------------------------------------------------- the loops

  lemma DraftedGroups(c: Crypto, rows: seq<LangflowRow>, k: string)
    ensures Keys(Drafted(c, rows), BySource) == Keys(rows, SourceOf)
    ensures Bucket(Drafted(c, rows), BySource, k) == Drafted(c, Bucket(rows, SourceOf, k))
  {
    GroupingOfImages(rows, row => ChunkOf(c, row, 0), SourceOf, BySource, k);
  }

  lemma NumberedDraft(c: Crypto, source: string, items: seq<LangflowRow>, i: nat)
    requires i < |items| && SourceOf(items[i]) == source
    ensures Number(c, source, Drafted(c, items))[i] == ChunkOf(c, items[i], i)
  {}

  lemma NumberedDrafts(c: Crypto, source: string, items: seq<LangflowRow>)
    requires forall i | 0 <= i < |items| :: SourceOf(items[i]) == source
    ensures Number(c, source, Drafted(c, items))
            == seq(|items|, i requires 0 <= i < |items| => ChunkOf(c, items[i], i))
  {
    var numbered := Number(c, source, Drafted(c, items));
    forall i | 0 <= i < |items|
      ensures numbered[i] == ChunkOf(c, items[i], i)
    {
      NumberedDraft(c, source, items, i);
    }
  }

  lemma BucketIsUniform(rows: seq<LangflowRow>, source: string)
    ensures var items := Bucket(rows, SourceOf, source); forall i | 0 <= i < |items| :: SourceOf(items[i]) == source
  {}

  lemma RegroupKeysStep(c: Crypto, xs: seq<MappedChunk>, ks: seq<string>, k: nat)
    requires k < |ks|
    ensures RegroupKeys(c, xs, ks[..k + 1])
            == RegroupKeys(c, xs, ks[..k]) + Number(c, ks[k], Bucket(xs, BySource, ks[k]))
  {
    assert ks[..k + 1][..k] == ks[..k];
  }

  /** `map_langflow_rows`. */
  method MapRows(c: Crypto, rows: seq<LangflowRow>) returns (mapped: seq<MappedChunk>)
    ensures mapped == MapLangflowRows(c, rows)
  {
    var order, grouped := GroupBy(rows, SourceOf);
    mapped := [];
    for k := 0 to |order|
      invariant mapped == RegroupKeys(c, Drafted(c, rows), order[..k])
    {
      RegroupKeysStep(c, Drafted(c, rows), order, k);
      DraftedGroups(c, rows, order[k]);
      BucketIsUniform(rows, order[k]);
      NumberedDrafts(c, order[k], grouped[order[k]]);
      mapped := AppendEnumerated(mapped, grouped[order[k]], (row, i) => ChunkOf(c, row, i));
    }
    assert order[..|order|] == order;
    DraftedGroups(c, rows, "");
  }

  function MoveOne(c: Crypto, overrides: map<string, string>, chunk: MappedChunk): (moved: Option<MappedChunk>)
    ensures moved == if Blank(chunk, overrides) then None else Some(Override(c, chunk, overrides))
  {
    var source := OverrideSource(chunk, overrides);
    var id := ParentDocumentId(c, Some(source), None);
    var title := if source != chunk.source then ChunkTitle(chunk.metadata, source) else chunk.title;
    match id
    case None => None
    case Some(d) => Some(chunk.(source := source, documentId := d, title := title))
  }

  /** The inner loop of `remap_sources`. */
  method AppendNumbered(c: Crypto, result: seq<MappedChunk>, source: string, items: seq<MappedChunk>)
    returns (longer: seq<MappedChunk>)
    ensures longer == result + Number(c, source, items)
  {
    longer := result;
    ghost var part := Number(c, source, items);
    for i := 0 to |items|
      invariant longer == result + part[..i]
    {
      longer := longer + [items[i].(documentId := IdOf(c, source), chunkIndex := i)];
      assert part[..i + 1] == part[..i] + [part[i]];
    }
    assert part[..|items|] == part;
  }

  /** The second loop of `remap_sources`. */
  method Renumber(c: Crypto, remapped: seq<MappedChunk>) returns (result: seq<MappedChunk>)
    ensures result == Regroup(c, remapped)
  {
    var order, grouped := GroupBy(remapped, BySource);
    result := [];
    for k := 0 to |order|
      invariant result == RegroupKeys(c, remapped, order[..k])
    {
      RegroupKeysStep(c, remapped, order, k);
      result := AppendNumbered(c, result, order[k], grouped[order[k]]);
    }
    assert order[..|order|] == order;
  }

  /** `remap_sources`. */
  method Remap(c: Crypto, chunks: seq<MappedChunk>, overrides: map<string, string>)
    returns (outcome: Result<seq<MappedChunk>, RemapError>)
    ensures outcome == RemapSources(c, chunks, overrides)
  {
    var remapped := MapOrFail(chunks, x => MoveOne(c, overrides, x));
    if remapped.None? {
      return Err(BlankSource);
    }
    assert remapped.value == Moved(c, chunks, overrides);
    var result := Renumber(c, remapped.value);
    outcome := Ok(result);
  }
}
