/** The tools of a chat session: registering them, offering them to the model, dispatching a call. */
module ChatTools {
  import opened Wrappers
  import opened Grouping
  import opened ToolNames

  /** An insertion-ordered dictionary from connection name to that connection's tools. */
  datatype ToolDict = ToolDict(keys: seq<string>, values: map<string, seq<Tool>>) {
    ghost predicate Valid() {
      Distinct(keys) && forall k :: k in keys <==> k in values
    }
  }

  datatype Chat = Chat(tools: ToolDict, servers: map<string, string>)

  const NO_TOOLS := ToolDict([], map[])

  /** `d[key] = tools`: an existing key keeps its place. */
  function Put(d: ToolDict, key: string, tools: seq<Tool>): (r: ToolDict)
    ensures d.Valid() ==> r.Valid()
  {
    ToolDict(if key in d.values then d.keys else d.keys + [key], d.values[key := tools])
  }

  function Without(keys: seq<string>, key: string): (r: seq<string>)
    ensures forall k :: k in r <==> k in keys && k != key
  {
    if keys == [] then []
    else
      var n := |keys| - 1;
      assert keys == keys[..n] + [keys[n]];
      Without(keys[..n], key) + if keys[n] == key then [] else [keys[n]]
  }

  lemma {:induction false} WithoutIsDistinct(keys: seq<string>, key: string)
    requires Distinct(keys)
    ensures Distinct(Without(keys, key))
  {
    if keys != [] {
      var n := |keys| - 1;
      assert keys == keys[..n] + [keys[n]];
      WithoutIsDistinct(keys[..n], key);
      var before := Without(keys[..n], key);
      assert keys[n] !in before;
      assert forall i | 0 <= i < |before| :: before[i] in before;
    }
  }

  /** `d.pop(key, None)`. */
  function Remove(d: ToolDict, key: string): (r: ToolDict)
    ensures d.Valid() ==> r.Valid()
  {
    assert d.Valid() ==> Distinct(Without(d.keys, key)) by {
      if d.Valid() {
        WithoutIsDistinct(d.keys, key);
      }
    }
    ToolDict(Without(d.keys, key), d.values - {key})
  }

  // ---------------------------------------------------------------- connect and disconnect hooks

  /** The gateway server behind a connection name; an empty id counts as none. */
  function ServerFor(nameToId: map<string, string>, connection: string): Option<string> {
    if connection in nameToId && nameToId[connection] != "" then Some(nameToId[connection]) else None
  }

  /** `prefix_tools_for_gateway`. */
  function PrefixTools(serverId: string, tools: seq<Tool>): seq<Tool> {
    if tools == [] then []
    else
      var n := |tools| - 1;
      PrefixTools(serverId, tools[..n]) + if tools[n].name == "" then [] else [Prefixed(serverId, tools[n])]
  }

  function Registered(server: Option<string>, listed: seq<Tool>): seq<Tool> {
    if server.Some? then PrefixTools(server.value, listed) else listed
  }

  datatype Event =
    | Connected(connection: string, listed: seq<Tool>)
    | Disconnected(connection: string)

  function Handle(nameToId: map<string, string>, chat: Chat, event: Event): Chat {
    match event
    case Connected(connection, listed) =>
      var server := ServerFor(nameToId, connection);
      Chat(Put(chat.tools, connection, Registered(server, listed)),
           if server.Some? then chat.servers[connection := server.value] else chat.servers)
    case Disconnected(connection) =>
      Chat(Remove(chat.tools, connection), chat.servers - {connection})
  }

  function Replay(nameToId: map<string, string>, events: seq<Event>): Chat {
    if events == [] then Chat(NO_TOOLS, map[])
    else Handle(nameToId, Replay(nameToId, events[..|events| - 1]), events[|events| - 1])
  }

  /** What a connection listed when it last connected, unless it has disconnected since. */
  function LastListing(events: seq<Event>, connection: string): Option<seq<Tool>> {
    if events == [] then None
    else
      var n := |events| - 1;
      if events[n].connection != connection then LastListing(events[..n], connection)
      else if events[n].Connected? then Some(events[n].listed) else None
  }

  /** The session holds, for every connection, exactly what its last listing registers. */
  ghost predicate Tracks(nameToId: map<string, string>, chat: Chat, events: seq<Event>, connection: string) {
    var server, listing := ServerFor(nameToId, connection), LastListing(events, connection);
    && (connection in chat.tools.values <==> listing.Some?)
    && (listing.Some? ==> chat.tools.values[connection] == Registered(server, listing.value))
    && (connection in chat.servers <==> listing.Some? && server.Some?)
    && (connection in chat.servers ==> chat.servers[connection] == server.value)
  }

  lemma {:induction false} ReplayTracks(nameToId: map<string, string>, events: seq<Event>, connection: string)
    ensures var chat := Replay(nameToId, events);
            chat.tools.Valid() && Tracks(nameToId, chat, events, connection)
  {
    if events != [] {
      ReplayTracks(nameToId, events[..|events| - 1], connection);
    }
  }

  // ---------------------------------------------------------------- offering and resolving

  datatype Entry = Entry(connection: string, tool: Tool)

  function EntryName(e: Entry): string {
    e.tool.name
  }

  function EntryTool(e: Entry): OpenAiTool {
    OpenAi(e.tool)
  }

  function EntriesOf(connection: string, tools: seq<Tool>): (r: seq<Entry>)
    ensures |r| == |tools| && forall i | 0 <= i < |r| :: r[i] == Entry(connection, tools[i])
  {
    seq(|tools|, i requires 0 <= i < |tools| => Entry(connection, tools[i]))
  }

  function EntriesFor(d: ToolDict, keys: seq<string>): seq<Entry>
    requires forall k | k in keys :: k in d.values
  {
    if keys == [] then []
    else
      var n := |keys| - 1;
      assert keys == keys[..n] + [keys[n]];
      EntriesFor(d, keys[..n]) + EntriesOf(keys[n], d.values[keys[n]])
  }

  /** All registered tools in dictionary order. */
  function Entries(d: ToolDict): seq<Entry>
    requires d.Valid()
  {
    EntriesFor(d, d.keys)
  }

  function DefaultNames(defaults: seq<OpenAiTool>): set<string> {
    set tool | tool in defaults :: tool.name
  }

  /** The entries whose schema is sent to the model, after the default tools. */
  function Advertised(defaults: seq<OpenAiTool>, d: ToolDict): seq<Entry>
    requires d.Valid()
  {
    FirstByName(DefaultNames(defaults), Entries(d), EntryName)
  }

  predicate HasTool(tools: seq<Tool>, name: string) {
    exists i | 0 <= i < |tools| :: tools[i].name == name
  }

  function FindAmong(name: string, d: ToolDict, keys: seq<string>): Option<string>
    requires forall k | k in keys :: k in d.values
  {
    if keys == [] then None
    else
      var n := |keys| - 1;
      assert keys == keys[..n] + [keys[n]];
      var earlier := FindAmong(name, d, keys[..n]);
      if earlier.Some? then earlier
      else if HasTool(d.values[keys[n]], name) then Some(keys[n])
      else None
  }

  /** `find_session_for_tool`: the first connection that has a tool of this name. */
  function FindSessionForTool(name: string, d: ToolDict): Option<string>
    requires d.Valid()
  {
    FindAmong(name, d, d.keys)
  }

  /** The connection and the tool name that `_dispatch_tool` settles on; an empty connection name counts as none. */
  function DispatchTarget(chat: Chat, name: string): Option<(string, string)>
    requires chat.tools.Valid()
  {
    match FindSessionForTool(name, chat.tools)
    case None => None
    case Some(connection) =>
      if connection == "" then None
      else
        Some((connection,
              if connection in chat.servers && chat.servers[connection] != ""
              then McpToolName(name, chat.servers[connection]) else name))
  }

  lemma {:induction false} NoEntryNoSession(d: ToolDict, keys: seq<string>, name: string)
    requires forall k | k in keys :: k in d.values
    ensures Named(EntriesFor(d, keys), name, EntryName) <==> FindAmong(name, d, keys).Some?
  {
    if keys != [] {
      var n := |keys| - 1;
      assert keys == keys[..n] + [keys[n]];
      NoEntryNoSession(d, keys[..n], name);
      var before, last, all := EntriesFor(d, keys[..n]), EntriesOf(keys[n], d.values[keys[n]]), EntriesFor(d, keys);
      if i :| 0 <= i < |all| && EntryName(all[i]) == name {
        if i < |before| {
          assert EntryName(before[i]) == name;
        } else {
          assert all[i] == last[i - |before|];
        }
      }
      if i :| 0 <= i < |before| && EntryName(before[i]) == name {
        assert EntryName(all[i]) == name;
      }
      if i :| 0 <= i < |last| && EntryName(last[i]) == name {
        assert EntryName(all[|before| + i]) == name;
      }
      if HasTool(d.values[keys[n]], name) {
        var i :| 0 <= i < |last| && d.values[keys[n]][i].name == name;
        assert EntryName(last[i]) == name;
      }
    }
  }

  /** The first entry of a name belongs to the connection that resolution picks. */
  lemma {:induction false} FirstEntryIsFound(d: ToolDict, keys: seq<string>, i: nat)
    requires forall k | k in keys :: k in d.values
    requires FirstAt(EntriesFor(d, keys), i, EntryName)
    ensures FindAmong(EntriesFor(d, keys)[i].tool.name, d, keys) == Some(EntriesFor(d, keys)[i].connection)
  {
    var n := |keys| - 1;
    assert keys == keys[..n] + [keys[n]];
    var before, last, all := EntriesFor(d, keys[..n]), EntriesOf(keys[n], d.values[keys[n]]), EntriesFor(d, keys);
    assert forall j | 0 <= j < |before| :: before[j] == all[j];
    if i < |before| {
      FirstEntryIsFound(d, keys[..n], i);
    } else {
      assert all[i] == last[i - |before|];
      assert HasTool(d.values[keys[n]], all[i].tool.name);
      NoEntryNoSession(d, keys[..n], EntryName(all[i]));
    }
  }

  lemma {:induction false} EntryIsRegistered(d: ToolDict, keys: seq<string>, i: nat)
    requires forall k | k in keys :: k in d.values
    requires i < |EntriesFor(d, keys)|
    ensures var e := EntriesFor(d, keys)[i];
            e.connection in d.values && e.tool in d.values[e.connection]
  {
    var n := |keys| - 1;
    assert keys == keys[..n] + [keys[n]];
    if i < |EntriesFor(d, keys[..n])| {
      EntryIsRegistered(d, keys[..n], i);
    }
  }

  lemma {:induction false} PrefixedCameFromListing(serverId: string, listed: seq<Tool>, tool: Tool) returns (l: Tool)
    requires tool in PrefixTools(serverId, listed)
    ensures l in listed && l.name != "" && tool == Prefixed(serverId, l)
  {
    var n := |listed| - 1;
    if tool in PrefixTools(serverId, listed[..n]) {
      l := PrefixedCameFromListing(serverId, listed[..n], tool);
    } else {
      l := listed[n];
    }
  }

  /** A listed tool of this connection whose schema is `ad` and whose own name is `sent`. */
  ghost predicate ListedAs(nameToId: map<string, string>, events: seq<Event>, connection: string,
                           ad: OpenAiTool, sent: string)
  {
    LastListing(events, connection).Some?
    && exists l | l in LastListing(events, connection).value ::
         && l.name == sent
         && ad == OpenAi(if ServerFor(nameToId, connection).Some?
                         then Prefixed(ServerFor(nameToId, connection).value, l) else l)
  }

  /** `e` is offered to the model, and calling it reaches a tool that its own connection listed. */
  ghost predicate DispatchesHome(nameToId: map<string, string>, events: seq<Event>, chat: Chat, e: Entry)
    requires chat.tools.Valid()
  {
    var target := DispatchTarget(chat, e.tool.name);
    && target.Some? && target.value.0 == e.connection
    && ListedAs(nameToId, events, target.value.0, OpenAi(e.tool), target.value.1)
  }

  /**
   Over every run of connects and disconnects: no name is offered twice, and calling an offered
   name reaches the connection whose schema was offered, under a name it listed for that schema,
   iff that connection has a name.
  */
  lemma AdvertisedToolsDispatch(nameToId: map<string, string>, events: seq<Event>)
    ensures var chat := Replay(nameToId, events);
            && chat.tools.Valid()
            && var ads := Advertised([], chat.tools);
            && (forall i, j | 0 <= i < j < |ads| :: ads[i].tool.name != ads[j].tool.name)
            && (forall k | 0 <= k < |ads| ::
                  DispatchesHome(nameToId, events, chat, ads[k]) <==> ads[k].connection != "")
  {
    var chat := Replay(nameToId, events);
    ReplayTracks(nameToId, events, "");
    var ads := Advertised([], chat.tools);
    FirstByNameKeepsNames(DefaultNames([]), Entries(chat.tools), EntryName);
    forall i, j | 0 <= i < j < |ads|
      ensures ads[i].tool.name != ads[j].tool.name
    {
      assert EntryName(ads[i]) != EntryName(ads[j]);
    }
    forall k | 0 <= k < |ads|
      ensures DispatchesHome(nameToId, events, chat, ads[k]) <==> ads[k].connection != ""
    {
      var i := FirstByNameIsFirst(DefaultNames([]), Entries(chat.tools), EntryName, k);
      FirstEntryIsFound(chat.tools, chat.tools.keys, i);
      EntryIsRegistered(chat.tools, chat.tools.keys, i);
      DispatchReachesListing(nameToId, events, ads[k]);
    }
  }

  lemma DispatchReachesListing(nameToId: map<string, string>, events: seq<Event>, e: Entry)
    requires var d := Replay(nameToId, events).tools;
             && d.Valid() && FindSessionForTool(e.tool.name, d) == Some(e.connection)
             && e.connection in d.values && e.tool in d.values[e.connection]
    ensures DispatchesHome(nameToId, events, Replay(nameToId, events), e) <==> e.connection != ""
  {
    ReplayTracks(nameToId, events, e.connection);
    var server, listed := ServerFor(nameToId, e.connection), LastListing(events, e.connection).value;
    if server.Some? {
      var l := PrefixedCameFromListing(server.value, listed, e.tool);
      StrippingRecovers(server.value, l.name);
    }
  }

  /** A name is reported as unknown iff it is not offered, or only by the connection without a name. */
  lemma UnknownIffNotOffered(nameToId: map<string, string>, events: seq<Event>, name: string)
    ensures var chat := Replay(nameToId, events);
            && chat.tools.Valid()
            && var ads := Advertised([], chat.tools);
            DispatchTarget(chat, name).None? <==>
            forall k | 0 <= k < |ads| && ads[k].tool.name == name :: ads[k].connection == ""
  {
    ReplayTracks(nameToId, events, "");
    var d := Replay(nameToId, events).tools;
    var ads := Advertised([], d);
    NoEntryNoSession(d, d.keys, name);
    AdvertisedNames(d, name);
    forall k | 0 <= k < |ads| && ads[k].tool.name == name
      ensures FindSessionForTool(name, d) == Some(ads[k].connection)
    {
      var i := FirstByNameIsFirst(DefaultNames([]), Entries(d), EntryName, k);
      FirstEntryIsFound(d, d.keys, i);
    }
    if Named(ads, name, EntryName) {
      var k :| 0 <= k < |ads| && EntryName(ads[k]) == name;
      assert ads[k].tool.name == name;
    } else {
      assert forall k | 0 <= k < |ads| :: EntryName(ads[k]) == ads[k].tool.name;
    }
  }

  lemma AdvertisedNames(d: ToolDict, name: string)
    requires d.Valid()
    ensures Named(Advertised([], d), name, EntryName) <==> Named(Entries(d), name, EntryName)
  {
    var entries, ads := Entries(d), Advertised([], d);
    FirstByNameKeepsNames(DefaultNames([]), entries, EntryName);
    if Named(ads, name, EntryName) {
      var k :| 0 <= k < |ads| && EntryName(ads[k]) == name;
      assert ads[k] in entries;
    }
  }

  // ---------------------------------------------------------------- the hooks and loops

  /** The per-session state that the hooks update. */
  class UserSession {
    const nameToId: map<string, string>
    var mcpTools: ToolDict
    var gatewayServerByConnection: map<string, string>

    constructor (nameToId: map<string, string>)
      ensures this.nameToId == nameToId && Contents() == Chat(NO_TOOLS, map[])
    {
      this.nameToId := nameToId;
      mcpTools, gatewayServerByConnection := NO_TOOLS, map[];
    }

    ghost function Contents(): Chat
      reads this
    {
      Chat(mcpTools, gatewayServerByConnection)
    }

    method OnMcpConnect(connection: string, listed: seq<Tool>)
      modifies this
      ensures Contents() == Handle(nameToId, old(Contents()), Connected(connection, listed))
    {
      var tools := listed;
      var server := ServerFor(nameToId, connection);
      if server.Some? {
        tools := PrefixToolsForGateway(server.value, listed);
        gatewayServerByConnection := gatewayServerByConnection[connection := server.value];
      }
      mcpTools := Put(mcpTools, connection, tools);
    }

    method OnMcpDisconnect(connection: string)
      modifies this
      ensures Contents() == Handle(nameToId, old(Contents()), Disconnected(connection))
    {
      mcpTools := Remove(mcpTools, connection);
      if connection in gatewayServerByConnection {
        gatewayServerByConnection := gatewayServerByConnection - {connection};
      }
    }
  }

  method PrefixToolsForGateway(serverId: string, tools: seq<Tool>) returns (prefixed: seq<Tool>)
    ensures prefixed == PrefixTools(serverId, tools)
  {
    prefixed := [];
    for i := 0 to |tools|
      invariant prefixed == PrefixTools(serverId, tools[..i])
    {
      assert tools[..i + 1][..i] == tools[..i];
      if tools[i].name != "" {
        prefixed := prefixed + [Prefixed(serverId, tools[i])];
      }
    }
    assert tools[..|tools|] == tools;
  }

  datatype Collection = Collection(seen: set<string>, merged: seq<OpenAiTool>)

  /** Collecting entries one after another: a name that was seen before is skipped. */
  function Collect(start: Collection, entries: seq<Entry>): Collection {
    if entries == [] then start
    else
      var n := |entries| - 1;
      var c := Collect(start, entries[..n]);
      if EntryName(entries[n]) in c.seen then c
      else Collection(c.seen + {EntryName(entries[n])}, c.merged + [EntryTool(entries[n])])
  }

  lemma {:induction false} CollectSum(start: Collection, xs: seq<Entry>, ys: seq<Entry>)
    ensures Collect(start, xs + ys) == Collect(Collect(start, xs), ys)
  {
    if ys == [] {
      assert xs + ys == xs;
    } else {
      var n := |ys| - 1;
      assert (xs + ys)[..|xs + ys| - 1] == xs + ys[..n];
      CollectSum(start, xs, ys[..n]);
    }
  }

  /** What is collected is the first entry of each new name, and what is seen are their names. */
  lemma {:induction false} CollectKeepsFirst(defaults: seq<OpenAiTool>, entries: seq<Entry>)
    ensures var start := DefaultNames(defaults);
            var c, kept := Collect(Collection(start, defaults), entries), FirstByName(start, entries, EntryName);
            && (forall s :: s in c.seen <==> s in start || Named(kept, s, EntryName))
            && c.merged == defaults + Map(EntryTool, kept)
  {
    if entries != [] {
      var n := |entries| - 1;
      var start, e := DefaultNames(defaults), entries[n];
      CollectKeepsFirst(defaults, entries[..n]);
      var kept := FirstByName(start, entries[..n], EntryName);
      if EntryName(e) !in start && !Named(kept, EntryName(e), EntryName) {
        MapStep(EntryTool, kept, e);
        NamedStep(kept, e);
      }
    }
  }

  lemma NamedStep(kept: seq<Entry>, e: Entry)
    ensures forall s :: Named(kept + [e], s, EntryName) <==> Named(kept, s, EntryName) || s == EntryName(e)
  {
    var more := kept + [e];
    assert EntryName(more[|kept|]) == EntryName(e);
    forall s | Named(kept, s, EntryName)
      ensures Named(more, s, EntryName)
    {
      var i :| 0 <= i < |kept| && EntryName(kept[i]) == s;
      assert EntryName(more[i]) == s;
    }
  }

  /** The inner loop of `collect_openai_tools`. */
  method CollectFrom(ghost connection: string, tools: seq<Tool>, seen: set<string>, merged: seq<OpenAiTool>)
    returns (nowSeen: set<string>, longer: seq<OpenAiTool>)
    ensures Collection(nowSeen, longer) == Collect(Collection(seen, merged), EntriesOf(connection, tools))
  {
    nowSeen, longer := seen, merged;
    ghost var part := EntriesOf(connection, tools);
    for i := 0 to |tools|
      invariant Collection(nowSeen, longer) == Collect(Collection(seen, merged), part[..i])
    {
      assert part[..i + 1][..i] == part[..i];
      if tools[i].name !in nowSeen {
        nowSeen := nowSeen + {tools[i].name};
        longer := longer + [OpenAi(tools[i])];
      }
    }
    assert part[..|tools|] == part;
  }

  /** `collect_openai_tools`. */
  method CollectOpenAiTools(defaults: seq<OpenAiTool>, sessionTools: ToolDict) returns (merged: seq<OpenAiTool>)
    requires sessionTools.Valid()
    ensures merged == defaults + Map(EntryTool, Advertised(defaults, sessionTools))
  {
    var seen := DefaultNames(defaults);
    merged := defaults;
    var keys := sessionTools.keys;
    ghost var start := Collection(seen, merged);
    for k := 0 to |keys|
      invariant Collection(seen, merged) == Collect(start, EntriesFor(sessionTools, keys[..k]))
    {
      assert keys[..k + 1][..k] == keys[..k];
      CollectSum(start, EntriesFor(sessionTools, keys[..k]), EntriesOf(keys[k], sessionTools.values[keys[k]]));
      seen, merged := CollectFrom(keys[k], sessionTools.values[keys[k]], seen, merged);
    }
    assert keys[..|keys|] == keys;
    CollectKeepsFirst(defaults, Entries(sessionTools));
  }
}
