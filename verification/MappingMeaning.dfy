/**
 What mapping and remapping give, chunk by chunk: where each chunk comes from, what its fields are,
 and in which order the chunks stand.
*/
module MappingMeaning {
  import opened Wrappers
  import opened DocumentTable
  import opened Grouping
  import opened FilingOrder
  import opened LangflowMapping
  import Text

  lemma {:induction false} RegroupKeysOrigins(c: Crypto, xs: seq<MappedChunk>, ks: seq<string>)
    ensures |RegroupKeys(c, xs, ks)| == |AllPlaces(xs, BySource, ks)|
    ensures forall j | 0 <= j < |RegroupKeys(c, xs, ks)| ::
              var p := AllPlaces(xs, BySource, ks)[j];
              RegroupKeys(c, xs, ks)[j]
              == xs[p].(documentId := IdOf(c, xs[p].source), chunkIndex := Rank(xs, BySource, p))
  {
    if ks != [] {
      var n := |ks| - 1;
      RegroupKeysOrigins(c, xs, ks[..n]);
      var places, bucket := Places(xs, BySource, ks[n]), Bucket(xs, BySource, ks[n]);
      PlacesOfBucket(xs, BySource, ks[n]);
      forall g | 0 <= g < |places|
        ensures Number(c, ks[n], bucket)[g]
                == xs[places[g]].(documentId := IdOf(c, xs[places[g]].source),
                                  chunkIndex := Rank(xs, BySource, places[g]))
      {
        PlaceIsRank(xs, BySource, ks[n], g);
      }
    }
  }

  /** Every item comes out once, in the order of the sources' first appearance and within a source in input order. */
  ghost predicate Rearranges<V>(xs: seq<V>, key: V -> string, origin: seq<nat>) {
    && |origin| == |xs|
    && (forall j | 0 <= j < |origin| :: origin[j] < |xs|)
    && (forall i, j | 0 <= i < j < |origin| :: ComesOutBefore(xs, key, origin[i], origin[j]))
  }

  lemma RegroupedOrigins(c: Crypto, xs: seq<MappedChunk>) returns (origin: seq<nat>)
    ensures Rearranges(xs, BySource, origin) && |Regroup(c, xs)| == |origin|
    ensures forall j | 0 <= j < |origin| ::
              var x := xs[origin[j]];
              Regroup(c, xs)[j]
              == x.(documentId := c.uuid5(Text.Strip(x.source)), chunkIndex := Rank(xs, BySource, origin[j]))
  {
    var ks := Keys(xs, BySource);
    origin := AllPlaces(xs, BySource, ks);
    RegroupKeysOrigins(c, xs, ks);
    RegroupPermutes(c, xs);
    assert |multiset(Map(Bare, Regroup(c, xs)))| == |multiset(Map(Bare, xs))|;
    forall a, b | 0 <= a < b < |ks|
      ensures FirstSeen(xs, BySource, ks[a]) < FirstSeen(xs, BySource, ks[b])
    {
      KeysInFirstSeenOrder(xs, BySource, a, b);
    }
    AllPlacesOrdered(xs, BySource, ks);
  }

  // ---------------------------------------------------------------- mapping

  /** The metadata's text under this field, stripped, if it is text and not blank. */
  function NamedText(metadata: Metadata, field: string): Option<string> {
    if field !in metadata then None
    else
      match metadata[field]
      case JsonText(text) => if Text.Strip(text) == "" then None else Some(Text.Strip(text))
      case _ => None
  }

  function RowMetadata(row: LangflowRow): Metadata {
    match row.cmetadata
    case None => map[]
    case Some(metadata) => metadata
  }

  /** The row's named source, or else a fallback made of its id. */
  function RowSource(row: LangflowRow): string {
    match NamedText(RowMetadata(row), "source")
    case None => "langflow:" + row.id
    case Some(source) => source
  }

  /** The source's base name, unless it has none or is a fallback. */
  function NameOf(source: string): string {
    if "langflow:" <= source || Text.BaseName(source) == "" then "Untitled" else Text.BaseName(source)
  }

  /** The metadata's title, unless it is the word for none; else the source's name. */
  function DueTitle(metadata: Metadata, source: string): string {
    match NamedText(metadata, "title")
    case Some(title) => if title != "Untitled" then title else NameOf(source)
    case None => NameOf(source)
  }

  lemma NamedTextIsField(metadata: Metadata, field: string)
    ensures TextField(metadata, field) == NamedText(metadata, field)
  {}

  lemma RowSourceIs(row: LangflowRow)
    ensures MetadataOf(row) == RowMetadata(row) && SourceOf(row) == RowSource(row)
  {
    NamedTextIsField(RowMetadata(row), "source");
  }

  lemma DueTitleIs(metadata: Metadata, source: string)
    ensures ChunkTitle(metadata, source) == DueTitle(metadata, source)
  {
    NamedTextIsField(metadata, "title");
    var title := NamedText(metadata, "title");
    if title.None? || title.value == "Untitled" {
      assert ChunkTitle(metadata, source) == NameOf(source);
    }
  }

  /** The chunk that a row gives. */
  ghost predicate MadeFrom(c: Crypto, x: MappedChunk, row: LangflowRow, index: int) {
    && x.content == row.document && x.embedding == row.embedding && x.metadata == RowMetadata(row)
    && x.source == RowSource(row) && x.title == DueTitle(RowMetadata(row), RowSource(row))
    && x.documentId == c.uuid5(Text.Strip(RowSource(row))) && x.chunkIndex == index
  }

  lemma RowChunk(c: Crypto, row: LangflowRow, index: int)
    ensures MadeFrom(c, ChunkOf(c, row, index), row, index)
  {
    RowSourceIs(row);
    DueTitleIs(RowMetadata(row), RowSource(row));
  }

  lemma RankOfImages<V, W>(xs: seq<V>, ys: seq<W>, before: V -> string, after: W -> string, p: nat)
    requires |xs| == |ys| && p < |xs| && forall i | 0 <= i < |xs| :: after(ys[i]) == before(xs[i])
    ensures Rank(xs, before, p) == Rank(ys, after, p)
  {
    assert Earlier(xs, before, p) == Earlier(ys, after, p);
  }

  lemma FirstSeenOfImages<V, W>(xs: seq<V>, ys: seq<W>, before: V -> string, after: W -> string, p: nat)
    requires |xs| == |ys| && p < |xs| && forall i | 0 <= i < |xs| :: after(ys[i]) == before(xs[i])
    ensures FirstSeen(xs, before, before(xs[p])) == FirstSeen(ys, after, after(ys[p]))
  {
    PlacesOfImages(xs, ys, before, after, before(xs[p]));
  }

  lemma OrderOfImages<V, W>(xs: seq<V>, ys: seq<W>, before: V -> string, after: W -> string, origin: seq<nat>)
    requires |xs| == |ys| && forall i | 0 <= i < |xs| :: after(ys[i]) == before(xs[i])
    requires Rearranges(ys, after, origin)
    ensures Rearranges(xs, before, origin)
  {
    forall i, j | 0 <= i < j < |origin|
      ensures ComesOutBefore(xs, before, origin[i], origin[j])
    {
      assert ComesOutBefore(ys, after, origin[i], origin[j]);
      FirstSeenOfImages(xs, ys, before, after, origin[i]);
      FirstSeenOfImages(xs, ys, before, after, origin[j]);
    }
  }

  lemma RenumberedIsMadeFrom(c: Crypto, x: MappedChunk, row: LangflowRow, index: int, rank: int)
    requires MadeFrom(c, x, row, index)
    ensures MadeFrom(c, x.(documentId := c.uuid5(Text.Strip(x.source)), chunkIndex := rank), row, rank)
  {}

  /**
   Mapping gives one chunk for each row, filed by source. The chunk has the row's text, embedding and
   metadata, its source and title, the id of that source, and its rank among the rows of the source.
  */
  lemma MappingDoes(c: Crypto, rows: seq<LangflowRow>) returns (origin: seq<nat>)
    ensures var mapped := MapLangflowRows(c, rows);
            && Rearranges(rows, RowSource, origin) && |mapped| == |origin|
            && forall j | 0 <= j < |origin| ::
                 MadeFrom(c, mapped[j], rows[origin[j]], Rank(rows, RowSource, origin[j]))
  {
    var xs := Drafted(c, rows);
    forall i | 0 <= i < |rows|
      ensures MadeFrom(c, xs[i], rows[i], 0) && BySource(xs[i]) == RowSource(rows[i])
    {
      RowChunk(c, rows[i], 0);
    }
    origin := RegroupedOrigins(c, xs);
    OrderOfImages(rows, xs, RowSource, BySource, origin);
    forall j | 0 <= j < |origin|
      ensures MadeFrom(c, MapLangflowRows(c, rows)[j], rows[origin[j]], Rank(rows, RowSource, origin[j]))
    {
      RankOfImages(rows, xs, RowSource, BySource, origin[j]);
      RenumberedIsMadeFrom(c, xs[origin[j]], rows[origin[j]], 0, Rank(rows, RowSource, origin[j]));
    }
  }

  // ---------------------------------------------------------------- remapping

  /** The override for a metadata field: for its text, or else for the base name of its text. */
  function FieldOverride(metadata: Metadata, field: string, overrides: map<string, string>): Option<string> {
    match NamedText(metadata, field)
    case None => None
    case Some(text) =>
      if text in overrides then Some(overrides[text])
      else if Text.BaseName(text) in overrides then Some(overrides[Text.BaseName(text)])
      else None
  }

  function OrElse(first: Option<string>, second: Option<string>): Option<string> {
    if first.Some? then first else second
  }

  /**
   Where a chunk goes: the override for its source, its source's base name, its title, or its
   metadata's source, file path, file name or name, whichever comes first; else it stays.
  */
  function Target(x: MappedChunk, overrides: map<string, string>): string {
    if x.source in overrides then overrides[x.source]
    else if Text.BaseName(x.source) in overrides then overrides[Text.BaseName(x.source)]
    else if x.title in overrides then overrides[x.title]
    else
      match OrElse(FieldOverride(x.metadata, "source", overrides),
                   OrElse(FieldOverride(x.metadata, "file_path", overrides),
                          OrElse(FieldOverride(x.metadata, "filename", overrides),
                                 FieldOverride(x.metadata, "name", overrides))))
      case None => x.source
      case Some(source) => source
  }

  lemma {:induction false} FirstOverrideOfSum(xs: seq<string>, ys: seq<string>, overrides: map<string, string>)
    ensures FirstOverride(xs + ys, overrides) == OrElse(FirstOverride(xs, overrides), FirstOverride(ys, overrides))
  {
    if xs == [] {
      assert xs + ys == ys;
    } else {
      assert (xs + ys)[1..] == xs[1..] + ys;
      FirstOverrideOfSum(xs[1..], ys, overrides);
    }
  }

  lemma FirstOfPair(x: string, y: string, overrides: map<string, string>)
    ensures FirstOverride([x, y], overrides)
            == if x in overrides then Some(overrides[x]) else if y in overrides then Some(overrides[y]) else None
  {
    var tail := [x, y][1..];
    assert tail == [y] && tail[1..] == [];
    assert FirstOverride(tail, overrides) == if y in overrides then Some(overrides[y]) else None;
  }

  lemma FieldOverrideIsFirst(metadata: Metadata, field: string, overrides: map<string, string>)
    ensures FirstOverride(FieldKeys(metadata, field), overrides) == FieldOverride(metadata, field, overrides)
  {
    NamedTextIsField(metadata, field);
    var named := NamedText(metadata, field);
    if named.Some? {
      FirstOfPair(named.value, Text.BaseName(named.value), overrides);
    }
  }

  lemma OwnOverrideIsFirst(x: string, y: string, z: string, overrides: map<string, string>)
    ensures FirstOverride([x, y, z], overrides)
            == if x in overrides then Some(overrides[x]) else FirstOverride([y, z], overrides)
  {
    assert [x, y, z][1..] == [y, z];
  }

  lemma FirstOfFields(metadata: Metadata, overrides: map<string, string>)
    ensures FirstOverride(FieldKeys(metadata, "source") + FieldKeys(metadata, "file_path")
                          + FieldKeys(metadata, "filename") + FieldKeys(metadata, "name"), overrides)
            == OrElse(FieldOverride(metadata, "source", overrides),
                      OrElse(FieldOverride(metadata, "file_path", overrides),
                             OrElse(FieldOverride(metadata, "filename", overrides),
                                    FieldOverride(metadata, "name", overrides))))
  {
    var a, b := FieldKeys(metadata, "source"), FieldKeys(metadata, "file_path");
    var d, e := FieldKeys(metadata, "filename"), FieldKeys(metadata, "name");
    FirstOverrideOfSum(a + b + d, e, overrides);
    FirstOverrideOfSum(a + b, d, overrides);
    FirstOverrideOfSum(a, b, overrides);
    FieldOverrideIsFirst(metadata, "source", overrides);
    FieldOverrideIsFirst(metadata, "file_path", overrides);
    FieldOverrideIsFirst(metadata, "filename", overrides);
    FieldOverrideIsFirst(metadata, "name", overrides);
  }

  lemma KeysAreOwnAndFields(x: MappedChunk)
    ensures SourceKeys(x)
            == [x.source, Text.BaseName(x.source), x.title]
               + (FieldKeys(x.metadata, "source") + FieldKeys(x.metadata, "file_path")
                  + FieldKeys(x.metadata, "filename") + FieldKeys(x.metadata, "name"))
  {
    RegroupSum([x.source, Text.BaseName(x.source), x.title], FieldKeys(x.metadata, "source"),
               FieldKeys(x.metadata, "file_path"), FieldKeys(x.metadata, "filename"), FieldKeys(x.metadata, "name"));
  }

  lemma RegroupSum(own: seq<string>, a: seq<string>, b: seq<string>, d: seq<string>, e: seq<string>)
    ensures own + a + b + d + e == own + (a + b + d + e)
  {}

  lemma TargetIsOverride(x: MappedChunk, overrides: map<string, string>)
    ensures OverrideSource(x, overrides) == Target(x, overrides)
  {
    var own := [x.source, Text.BaseName(x.source), x.title];
    var fields := FieldKeys(x.metadata, "source") + FieldKeys(x.metadata, "file_path")
                  + FieldKeys(x.metadata, "filename") + FieldKeys(x.metadata, "name");
    KeysAreOwnAndFields(x);
    FirstOverrideOfSum(own, fields, overrides);
    FirstOfFields(x.metadata, overrides);
    OwnOverrideIsFirst(x.source, Text.BaseName(x.source), x.title, overrides);
    FirstOfPair(Text.BaseName(x.source), x.title, overrides);
  }

  /** A chunk with its target as source, the target's id, and a new title if the source has changed. */
  ghost predicate MovedTo(c: Crypto, x: MappedChunk, y: MappedChunk, target: string, index: int) {
    && y.content == x.content && y.embedding == x.embedding && y.metadata == x.metadata
    && y.source == target && y.documentId == c.uuid5(Text.Strip(target)) && y.chunkIndex == index
    && y.title == if target == x.source then x.title else DueTitle(x.metadata, target)
  }

  lemma OverrideMoves(c: Crypto, x: MappedChunk, overrides: map<string, string>)
    ensures MovedTo(c, x, Override(c, x, overrides), Target(x, overrides), x.chunkIndex)
    ensures Blank(x, overrides) <==> Text.Strip(Target(x, overrides)) == ""
  {
    TargetIsOverride(x, overrides);
    DueTitleIs(x.metadata, Target(x, overrides));
  }

  lemma RenumberedIsMovedTo(c: Crypto, x: MappedChunk, y: MappedChunk, target: string, index: int, rank: int)
    requires MovedTo(c, x, y, target, index)
    ensures MovedTo(c, x, y.(documentId := c.uuid5(Text.Strip(y.source)), chunkIndex := rank), target, rank)
  {}

  /** Remapping fails exactly if some chunk's target is blank. */
  lemma RemappingFailsIff(c: Crypto, chunks: seq<MappedChunk>, overrides: map<string, string>)
    ensures RemapSources(c, chunks, overrides).Err? <==>
            exists x :: x in chunks && Text.Strip(Target(x, overrides)) == ""
  {
    forall x: MappedChunk
      ensures Blank(x, overrides) <==> Text.Strip(Target(x, overrides)) == ""
    {
      OverrideMoves(c, x, overrides);
    }
  }

  /**
   Otherwise each chunk is moved to its target and numbered by its rank among the chunks of that
   target, and they are filed by target.
  */
  lemma RemappingDoes(c: Crypto, chunks: seq<MappedChunk>, overrides: map<string, string>,
                      target: MappedChunk -> string)
    returns (origin: seq<nat>)
    requires RemapSources(c, chunks, overrides).Ok? && forall x :: target(x) == Target(x, overrides)
    ensures var remapped := RemapSources(c, chunks, overrides).value;
            && Rearranges(chunks, target, origin) && |remapped| == |origin|
            && forall j | 0 <= j < |origin| ::
                 var x := chunks[origin[j]];
                 MovedTo(c, x, remapped[j], Target(x, overrides), Rank(chunks, target, origin[j]))
  {
    var moved := Moved(c, chunks, overrides);
    forall i | 0 <= i < |chunks|
      ensures BySource(moved[i]) == target(chunks[i])
      ensures MovedTo(c, chunks[i], moved[i], Target(chunks[i], overrides), chunks[i].chunkIndex)
    {
      OverrideMoves(c, chunks[i], overrides);
    }
    origin := RegroupedOrigins(c, moved);
    OrderOfImages(chunks, moved, target, BySource, origin);
    forall j | 0 <= j < |origin|
      ensures var x := chunks[origin[j]];
              MovedTo(c, x, Regroup(c, moved)[j], Target(x, overrides), Rank(chunks, target, origin[j]))
    {
      var x, y := chunks[origin[j]], moved[origin[j]];
      RankOfImages(chunks, moved, target, BySource, origin[j]);
      RenumberedIsMovedTo(c, x, y, Target(x, overrides), x.chunkIndex, Rank(chunks, target, origin[j]));
    }
  }
}
