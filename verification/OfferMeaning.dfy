/**
 What the model is offered after any run of connects and disconnects, told from the listings alone:
 which tools, in which order, under which names and texts, and where a call of each one goes.
*/
module OfferMeaning {
  import opened Wrappers
  import opened Grouping
  import opened Positions
  import opened ToolNames
  import opened ChatTools
  import Text

  /** A tool at its place in what a connection listed. */
  datatype Source = Source(connection: string, place: nat)

  predicate ThroughGateway(nameToId: map<string, string>, connection: string) {
    connection in nameToId && nameToId[connection] != ""
  }

  /** What a model is told about a listed tool. */
  ghost predicate ToldAs(tool: Tool, name: string, description: string, ad: OpenAiTool) {
    && ad.name == name
    && ad.description == description
    && ad.parameters == match tool.schema case None => EMPTY_SCHEMA case Some(schema) => schema
  }

  function Said(tool: Tool): string {
    match tool.description case None => "" case Some(text) => text
  }

  /** The tool's own name, and what it says of itself unless that is blank. */
  function Introduction(tool: Tool): string {
    var said := Text.Strip(Said(tool));
    var lead := "MCP tool " + tool.name + ".";
    if said == "" then lead else lead + " " + said
  }

  /** Behind the gateway the id leads the name and the description is introduced; otherwise both stay. */
  ghost predicate OfferedAs(nameToId: map<string, string>, connection: string, tool: Tool, ad: OpenAiTool) {
    if ThroughGateway(nameToId, connection) then
      ToldAs(tool, nameToId[connection] + "__" + tool.name, Introduction(tool), ad)
    else ToldAs(tool, tool.name, Said(tool), ad)
  }

  lemma PlainIsTold(tool: Tool)
    ensures ToldAs(tool, tool.name, Said(tool), OpenAi(tool))
  {}

  lemma DescriptionIsIntroduction(tool: Tool)
    ensures Describe(tool.name, tool.description) == Introduction(tool)
  {}

  lemma PrefixedIsTold(id: string, tool: Tool)
    ensures ToldAs(tool, id + "__" + tool.name, Introduction(tool), OpenAi(Prefixed(id, tool)))
  {
    DescriptionIsIntroduction(tool);
  }

  // ---------------------------------------------------------------- one connection

  ghost function NamedPlaces(tools: seq<Tool>): set<nat> {
    set i: nat | i < |tools| && tools[i].name != ""
  }

  /** Prefixing keeps the tools that have a name, in order. */
  ghost predicate PrefixedFrom(serverId: string, tools: seq<Tool>, prefixed: seq<Tool>, at: seq<nat>) {
    && Ascending(at, NamedPlaces(tools))
    && |prefixed| == |at|
    && forall k | 0 <= k < |at| :: prefixed[k] == Prefixed(serverId, tools[at[k]])
  }

  lemma PrefixNext(serverId: string, tools: seq<Tool>, tool: Tool, prefixed: seq<Tool>, at: seq<nat>)
    requires PrefixedFrom(serverId, tools, prefixed, at)
    ensures if tool.name != ""
            then PrefixedFrom(serverId, tools + [tool], prefixed + [Prefixed(serverId, tool)], at + [|tools|])
            else PrefixedFrom(serverId, tools + [tool], prefixed, at)
  {
    var before, after := NamedPlaces(tools), NamedPlaces(tools + [tool]);
    assert after == if tool.name != "" then before + {|tools|} else before;
    NextPlace(at, before, |tools|, tool.name != "", after);
  }

  lemma {:induction false} PrefixPlaces(serverId: string, tools: seq<Tool>) returns (at: seq<nat>)
    ensures PrefixedFrom(serverId, tools, PrefixTools(serverId, tools), at)
  {
    at := [];
    if tools != [] {
      var n := |tools| - 1;
      at := PrefixPlaces(serverId, tools[..n]);
      PrefixNext(serverId, tools[..n], tools[n], PrefixTools(serverId, tools[..n]), at);
      assert tools == tools[..n] + [tools[n]];
      if tools[n].name != "" {
        at := at + [n];
      }
    }
  }

  /** The places of a listing whose tools are offered at all: behind the gateway those with a name. */
  ghost function OfferedPlaces(gateway: bool, tools: seq<Tool>): set<nat> {
    set i: nat | i < |tools| && (gateway ==> tools[i].name != "")
  }

  /** A connection's registered tools are the offered ones of its listing, in order. */
  ghost predicate RegisteredFrom(nameToId: map<string, string>, connection: string, listed: seq<Tool>,
                                 tools: seq<Tool>, at: seq<nat>)
  {
    && Ascending(at, OfferedPlaces(ThroughGateway(nameToId, connection), listed))
    && |tools| == |at|
    && forall k | 0 <= k < |at| :: OfferedAs(nameToId, connection, listed[at[k]], OpenAi(tools[k]))
  }

  lemma RegisteredPlaces(nameToId: map<string, string>, connection: string, listed: seq<Tool>) returns (at: seq<nat>)
    ensures RegisteredFrom(nameToId, connection, listed, Registered(ServerFor(nameToId, connection), listed), at)
  {
    if ThroughGateway(nameToId, connection) {
      var id := nameToId[connection];
      at := PrefixPlaces(id, listed);
      assert NamedPlaces(listed) == OfferedPlaces(true, listed);
      var tools := PrefixTools(id, listed);
      forall k | 0 <= k < |at|
        ensures OfferedAs(nameToId, connection, listed[at[k]], OpenAi(tools[k]))
      {
        PrefixedIsTold(id, listed[at[k]]);
      }
    } else {
      at := seq(|listed|, i requires 0 <= i < |listed| => i);
      forall i | i in OfferedPlaces(false, listed)
        ensures i in at
      {
        assert at[i] == i;
      }
      Enumerates(at, OfferedPlaces(false, listed));
      forall k | 0 <= k < |at|
        ensures OfferedAs(nameToId, connection, listed[at[k]], OpenAi(listed[k]))
      {
        PlainIsTold(listed[k]);
      }
    }
  }

  // ---------------------------------------------------------------- the order of connections

  /** When the present stay of a connection began: at its first connect since it was last disconnected. */
  function Opening(events: seq<Event>, connection: string): Option<nat> {
    if events == [] then None
    else
      var n := |events| - 1;
      var before := Opening(events[..n], connection);
      if events[n].connection != connection then before
      else if events[n].Disconnected? then None
      else if before.Some? then before
      else Some(n)
  }

  ghost predicate Earlier(events: seq<Event>, c: string, d: string) {
    && Opening(events, c).Some? && Opening(events, d).Some?
    && Opening(events, c).value < Opening(events, d).value
  }

  lemma {:induction false} OpeningIsPast(events: seq<Event>, connection: string)
    ensures Opening(events, connection).Some? <==> LastListing(events, connection).Some?
    ensures Opening(events, connection).Some? ==> Opening(events, connection).value < |events|
  {
    if events != [] {
      OpeningIsPast(events[..|events| - 1], connection);
    }
  }

  ghost predicate Ranked(events: seq<Event>, keys: seq<string>) {
    forall p, q :: 0 <= p < q < |keys| ==> Earlier(events, keys[p], keys[q])
  }

  ghost predicate InOpeningOrder(events: seq<Event>, keys: seq<string>) {
    && (forall c :: c in keys <==> Opening(events, c).Some?)
    && Ranked(events, keys)
  }

  lemma {:induction false} WithoutKeepsOrder(events: seq<Event>, keys: seq<string>, key: string)
    requires Ranked(events, keys)
    ensures Ranked(events, Without(keys, key))
  {
    if keys != [] {
      var n := |keys| - 1;
      WithoutKeepsOrder(events, keys[..n], key);
      var before, r := Without(keys[..n], key), Without(keys, key);
      if keys[n] != key {
        forall p | 0 <= p < |before|
          ensures Earlier(events, before[p], keys[n])
        {
          assert before[p] in before;
          var i :| 0 <= i < n && keys[..n][i] == before[p];
          assert keys[i] == before[p] && Earlier(events, keys[i], keys[n]);
        }
        assert r == before + [keys[n]];
      }
    }
  }

  lemma OrderAfterDisconnect(events: seq<Event>, connection: string, keys: seq<string>)
    requires InOpeningOrder(events, keys)
    ensures InOpeningOrder(events + [Disconnected(connection)], Without(keys, connection))
  {
    var now := events + [Disconnected(connection)];
    assert now[..|events|] == events;
    forall c
      ensures Opening(now, c) == if c == connection then None else Opening(events, c)
    {}
    WithoutKeepsOrder(events, keys, connection);
    var r := Without(keys, connection);
    forall p, q | 0 <= p < q < |r|
      ensures Earlier(now, r[p], r[q])
    {
      assert Earlier(events, r[p], r[q]);
      assert r[p] in r && r[q] in r;
    }
  }

  lemma OrderAfterConnect(events: seq<Event>, connection: string, listed: seq<Tool>, keys: seq<string>)
    requires InOpeningOrder(events, keys)
    ensures InOpeningOrder(events + [Connected(connection, listed)],
                           if connection in keys then keys else keys + [connection])
  {
    var now := events + [Connected(connection, listed)];
    var longer := if connection in keys then keys else keys + [connection];
    assert now[..|events|] == events;
    forall c
      ensures Opening(now, c)
              == if c == connection && Opening(events, c).None? then Some(|events|) else Opening(events, c)
      ensures Opening(events, c).Some? ==> Opening(events, c).value < |events|
    {
      OpeningIsPast(events, c);
    }
    forall p, q | 0 <= p < q < |longer|
      ensures Earlier(now, longer[p], longer[q])
    {
      assert longer[p] == keys[p] && keys[p] in keys;
      if q < |keys| {
        assert Earlier(events, keys[p], keys[q]) && keys[q] in keys;
      }
    }
  }

  /** The dictionary lists the open connections in the order in which their present stays began. */
  lemma {:induction false} ConnectionsInOpeningOrder(nameToId: map<string, string>, events: seq<Event>)
    ensures InOpeningOrder(events, Replay(nameToId, events).tools.keys)
  {
    if events != [] {
      var n := |events| - 1;
      ConnectionsInOpeningOrder(nameToId, events[..n]);
      ReplayTracks(nameToId, events[..n], "");
      var keys := Replay(nameToId, events[..n]).tools.keys;
      assert events == events[..n] + [events[n]];
      match events[n]
      case Connected(connection, listed) => OrderAfterConnect(events[..n], connection, listed, keys);
      case Disconnected(connection) => OrderAfterDisconnect(events[..n], connection, keys);
    }
  }

  // ---------------------------------------------------------------- all registered tools

  /** An offered place of what an open connection listed. */
  ghost predicate Stands(nameToId: map<string, string>, events: seq<Event>, s: Source) {
    && LastListing(events, s.connection).Some?
    && s.place in OfferedPlaces(ThroughGateway(nameToId, s.connection), LastListing(events, s.connection).value)
  }

  ghost function ListedTool(nameToId: map<string, string>, events: seq<Event>, s: Source): Tool
    requires Stands(nameToId, events, s)
  {
    LastListing(events, s.connection).value[s.place]
  }

  /** Connections by when their stays began, tools of one connection as it listed them. */
  ghost predicate Precedes(events: seq<Event>, s: Source, t: Source) {
    if s.connection == t.connection then s.place < t.place else Earlier(events, s.connection, t.connection)
  }

  ghost predicate ComesFrom(nameToId: map<string, string>, events: seq<Event>, e: Entry, s: Source) {
    && Stands(nameToId, events, s)
    && e.connection == s.connection
    && OfferedAs(nameToId, s.connection, ListedTool(nameToId, events, s), OpenAi(e.tool))
  }

  ghost predicate Sources(nameToId: map<string, string>, events: seq<Event>, entries: seq<Entry>, src: seq<Source>) {
    && |src| == |entries|
    && (forall i | 0 <= i < |src| :: ComesFrom(nameToId, events, entries[i], src[i]))
    && (forall i, j :: 0 <= i < j < |src| ==> Precedes(events, src[i], src[j]))
  }

  /** The sources of these connections are all there, and no others. */
  ghost predicate Covers(nameToId: map<string, string>, events: seq<Event>, keys: seq<string>, src: seq<Source>) {
    && (forall i | 0 <= i < |src| :: src[i].connection in keys)
    && (forall s | Stands(nameToId, events, s) && s.connection in keys :: s in src)
  }

  ghost function SourcesAt(connection: string, at: seq<nat>): (r: seq<Source>)
    ensures |r| == |at| && forall k | 0 <= k < |at| :: r[k] == Source(connection, at[k])
  {
    seq(|at|, k requires 0 <= k < |at| => Source(connection, at[k]))
  }

  lemma SourcesOfOne(nameToId: map<string, string>, events: seq<Event>, d: ToolDict, c: string)
    returns (src: seq<Source>)
    requires c in d.values && LastListing(events, c).Some?
    requires d.values[c] == Registered(ServerFor(nameToId, c), LastListing(events, c).value)
    ensures Sources(nameToId, events, EntriesOf(c, d.values[c]), src) && Covers(nameToId, events, [c], src)
  {
    var listed := LastListing(events, c).value;
    var at := RegisteredPlaces(nameToId, c, listed);
    src := SourcesAt(c, at);
    var places := OfferedPlaces(ThroughGateway(nameToId, c), listed);
    forall s | Stands(nameToId, events, s) && s.connection in [c]
      ensures s in src
    {
      var k := PlaceOf(at, places, s.place);
      assert src[k] == s;
    }
  }

  lemma OrderOfMore(events: seq<Event>, src: seq<Source>, more: seq<Source>)
    requires forall i, j :: 0 <= i < j < |src| ==> Precedes(events, src[i], src[j])
    requires forall i, j :: 0 <= i < j < |more| ==> Precedes(events, more[i], more[j])
    requires forall s, t | s in src && t in more :: Precedes(events, s, t)
    ensures var all := src + more; forall i, j :: 0 <= i < j < |all| ==> Precedes(events, all[i], all[j])
  {
    var all := src + more;
    forall i, j | 0 <= i < j < |all|
      ensures Precedes(events, all[i], all[j])
    {
      if i < |src| {
        assert all[i] == src[i];
        if j < |src| {
          assert all[j] == src[j];
        } else {
          assert all[j] == more[j - |src|];
        }
      } else {
        assert all[i] == more[i - |src|] && all[j] == more[j - |src|];
      }
    }
  }

  lemma CoversMore(nameToId: map<string, string>, events: seq<Event>, keys: seq<string>, c: string,
                   src: seq<Source>, more: seq<Source>)
    requires Covers(nameToId, events, keys, src) && Covers(nameToId, events, [c], more)
    ensures Covers(nameToId, events, keys + [c], src + more)
  {
    var all := src + more;
    forall i | 0 <= i < |all|
      ensures all[i].connection in keys + [c]
    {
      if i < |src| {
        assert all[i] == src[i];
      } else {
        assert all[i] == more[i - |src|];
      }
    }
  }

  lemma SourcesOfMore(nameToId: map<string, string>, events: seq<Event>, keys: seq<string>, c: string,
                      entries: seq<Entry>, src: seq<Source>, last: seq<Entry>, more: seq<Source>)
    requires Sources(nameToId, events, entries, src) && Covers(nameToId, events, keys, src)
    requires Sources(nameToId, events, last, more) && Covers(nameToId, events, [c], more)
    requires forall k | k in keys :: k != c && Earlier(events, k, c)
    ensures Sources(nameToId, events, entries + last, src + more)
  {
    var all := src + more;
    forall s, t | s in src && t in more
      ensures Precedes(events, s, t)
    {
      assert t.connection in [c];
    }
    OrderOfMore(events, src, more);
    forall i | 0 <= i < |all|
      ensures ComesFrom(nameToId, events, (entries + last)[i], all[i])
    {
      if i < |src| {
        assert all[i] == src[i] && (entries + last)[i] == entries[i];
      } else {
        assert all[i] == more[i - |src|] && (entries + last)[i] == last[i - |src|];
      }
    }
  }

  lemma LastIsLatest(events: seq<Event>, keys: seq<string>)
    requires Ranked(events, keys) && keys != []
    ensures var n := |keys| - 1;
            Ranked(events, keys[..n]) && forall k | k in keys[..n] :: k != keys[n] && Earlier(events, k, keys[n])
  {
    var n := |keys| - 1;
    forall k | k in keys[..n]
      ensures k != keys[n] && Earlier(events, k, keys[n])
    {
      var p :| 0 <= p < n && keys[..n][p] == k;
      assert Earlier(events, keys[p], keys[n]);
    }
  }

  lemma {:induction false} SourcesOfKeys(nameToId: map<string, string>, events: seq<Event>, d: ToolDict,
                                         keys: seq<string>)
    returns (src: seq<Source>)
    requires Ranked(events, keys) && forall k | k in keys :: k in d.values
    requires forall k | k in keys :: LastListing(events, k).Some?
                                     && d.values[k] == Registered(ServerFor(nameToId, k), LastListing(events, k).value)
    ensures Sources(nameToId, events, EntriesFor(d, keys), src) && Covers(nameToId, events, keys, src)
  {
    src := [];
    if keys != [] {
      var n := |keys| - 1;
      assert keys == keys[..n] + [keys[n]];
      LastIsLatest(events, keys);
      src := SourcesOfKeys(nameToId, events, d, keys[..n]);
      var more := SourcesOfOne(nameToId, events, d, keys[n]);
      SourcesOfMore(nameToId, events, keys[..n], keys[n], EntriesFor(d, keys[..n]), src,
                    EntriesOf(keys[n], d.values[keys[n]]), more);
      CoversMore(nameToId, events, keys[..n], keys[n], src, more);
      src := src + more;
    }
  }

  lemma SourcesOfRun(nameToId: map<string, string>, events: seq<Event>) returns (src: seq<Source>)
    ensures var d := Replay(nameToId, events).tools;
            d.Valid() && Sources(nameToId, events, Entries(d), src) && Covers(nameToId, events, d.keys, src)
  {
    var d := Replay(nameToId, events).tools;
    ReplayTracks(nameToId, events, "");
    ConnectionsInOpeningOrder(nameToId, events);
    forall k | k in d.keys
      ensures k in d.values && LastListing(events, k).Some?
      ensures d.values[k] == Registered(ServerFor(nameToId, k), LastListing(events, k).value)
    {
      ReplayTracks(nameToId, events, k);
    }
    src := SourcesOfKeys(nameToId, events, d, d.keys);
  }

  // ---------------------------------------------------------------- the offer

  /** What `_dispatch_tool` makes of an offered name: the connection that offers it and the name it listed. */
  lemma CallGoesHome(nameToId: map<string, string>, events: seq<Event>, i: nat, s: Source)
    requires var d := Replay(nameToId, events).tools;
             d.Valid() && FirstAt(Entries(d), i, EntryName) && ComesFrom(nameToId, events, Entries(d)[i], s)
    ensures var chat := Replay(nameToId, events);
            DispatchTarget(chat, Entries(chat.tools)[i].tool.name)
            == if s.connection == "" then None else Some((s.connection, ListedTool(nameToId, events, s).name))
  {
    var chat := Replay(nameToId, events);
    ReplayTracks(nameToId, events, s.connection);
    FirstEntryIsFound(chat.tools, chat.tools.keys, i);
    var tool := ListedTool(nameToId, events, s);
    if ThroughGateway(nameToId, s.connection) {
      StrippingRecovers(nameToId[s.connection], tool.name);
    }
  }

  lemma ChosenAreSources(nameToId: map<string, string>, events: seq<Event>, entries: seq<Entry>, all: seq<Source>,
                         kept: seq<Entry>, at: seq<nat>)
    requires Sources(nameToId, events, entries, all) && FirstsOf(entries, EntryName, kept, at)
    ensures (forall k | 0 <= k < |at| :: at[k] < |all|) && Sources(nameToId, events, kept, Chosen(all, at))
  {
    forall k | 0 <= k < |at|
      ensures at[k] < |all|
    {
      assert at[k] in FirstPlaces(entries, EntryName);
    }
  }

  /** Some entry bears the name first. */
  lemma {:induction false} FirstBearer(entries: seq<Entry>, i: nat) returns (f: nat)
    requires i < |entries|
    ensures f <= i && FirstAt(entries, f, EntryName) && EntryName(entries[f]) == EntryName(entries[i])
  {
    f := i;
    if j :| 0 <= j < i && EntryName(entries[j]) == EntryName(entries[i]) {
      f := FirstBearer(entries, j);
    }
  }

  /** The name under which the model knows a listed tool. */
  ghost function OfferedName(nameToId: map<string, string>, events: seq<Event>, s: Source): string
    requires Stands(nameToId, events, s)
  {
    var name := ListedTool(nameToId, events, s).name;
    if ThroughGateway(nameToId, s.connection) then nameToId[s.connection] + "__" + name else name
  }

  lemma EntryHasOfferedName(nameToId: map<string, string>, events: seq<Event>, e: Entry, s: Source)
    requires ComesFrom(nameToId, events, e, s)
    ensures EntryName(e) == OfferedName(nameToId, events, s)
  {}

  /** One of these has the tool's name: the tool itself or an earlier one. */
  ghost predicate HasName(nameToId: map<string, string>, events: seq<Event>, src: seq<Source>, s: Source)
    requires Stands(nameToId, events, s)
  {
    exists k | 0 <= k < |src| ::
      && Stands(nameToId, events, src[k])
      && OfferedName(nameToId, events, src[k]) == OfferedName(nameToId, events, s)
      && (src[k] == s || Precedes(events, src[k], s))
  }

  lemma FirstSource(nameToId: map<string, string>, events: seq<Event>, entries: seq<Entry>, all: seq<Source>, i: nat)
    returns (f: nat)
    requires Sources(nameToId, events, entries, all) && i < |all|
    ensures f < |all| && f in FirstPlaces(entries, EntryName)
    ensures Stands(nameToId, events, all[f]) && Stands(nameToId, events, all[i])
    ensures OfferedName(nameToId, events, all[f]) == OfferedName(nameToId, events, all[i])
    ensures all[f] == all[i] || Precedes(events, all[f], all[i])
  {
    f := FirstBearer(entries, i);
    assert ComesFrom(nameToId, events, entries[f], all[f]) && ComesFrom(nameToId, events, entries[i], all[i]);
    EntryHasOfferedName(nameToId, events, entries[f], all[f]);
    EntryHasOfferedName(nameToId, events, entries[i], all[i]);
  }

  lemma NoNameIsMissing(nameToId: map<string, string>, events: seq<Event>, entries: seq<Entry>, all: seq<Source>,
                        kept: seq<Entry>, at: seq<nat>, s: Source)
    requires Sources(nameToId, events, entries, all) && FirstsOf(entries, EntryName, kept, at)
    requires forall k | 0 <= k < |at| :: at[k] < |all|
    requires Stands(nameToId, events, s) && s in all
    ensures HasName(nameToId, events, Chosen(all, at), s)
  {
    var i :| 0 <= i < |all| && all[i] == s;
    var f := FirstSource(nameToId, events, entries, all, i);
    var k := PlaceOf(at, FirstPlaces(entries, EntryName), f);
    assert Chosen(all, at)[k] == all[f];
  }

  /**
   The offer after any run of connects and disconnects. Its tools come one by one from the open
   connections' listings, the longest-open connection first, told as their connection tells them,
   and calling one reaches that connection under the name it listed, unless the connection has no
   name. Every tool of a listing has its name in the offer, from itself or from one before it.
  */
  lemma OfferDoes(nameToId: map<string, string>, events: seq<Event>) returns (src: seq<Source>)
    ensures var chat := Replay(nameToId, events);
            && chat.tools.Valid()
            && var ads := Advertised([], chat.tools);
            && Sources(nameToId, events, ads, src)
            && (forall j, k | 0 <= j < k < |ads| :: ads[j].tool.name != ads[k].tool.name)
            && (forall k | 0 <= k < |ads| ::
                  DispatchTarget(chat, ads[k].tool.name)
                  == if src[k].connection == "" then None
                     else Some((src[k].connection, ListedTool(nameToId, events, src[k]).name)))
            && (forall s | Stands(nameToId, events, s) :: HasName(nameToId, events, src, s))
  {
    var chat := Replay(nameToId, events);
    var all := SourcesOfRun(nameToId, events);
    var entries, ads := Entries(chat.tools), Advertised([], chat.tools);
    var at := KeptPlaces(entries, EntryName);
    assert DefaultNames([]) == {};
    ChosenAreSources(nameToId, events, entries, all, ads, at);
    src := Chosen(all, at);
    FirstByNameKeepsNames({}, entries, EntryName);
    assert forall k | 0 <= k < |ads| :: EntryName(ads[k]) == ads[k].tool.name;
    forall k | 0 <= k < |ads|
      ensures DispatchTarget(chat, ads[k].tool.name)
              == if src[k].connection == "" then None
                 else Some((src[k].connection, ListedTool(nameToId, events, src[k]).name))
    {
      assert at[k] in FirstPlaces(entries, EntryName);
      CallGoesHome(nameToId, events, at[k], all[at[k]]);
    }
    forall s | Stands(nameToId, events, s)
      ensures HasName(nameToId, events, src, s)
    {
      ReplayTracks(nameToId, events, s.connection);
      NoNameIsMissing(nameToId, events, entries, all, ads, at, s);
    }
  }
}
