/** The gateway's server registry and the policy that decides which tools a caller may use. */
module Registry {
  import opened Wrappers

  /** The `authorization` value of a server: absent, an explicit null, or a mapping. */
  datatype Authorization =
    | NoAuthorization
    | NullAuthorization
    | Authorization(allowedTools: seq<string>, requiredRoles: set<string>)

  /** The `authentication` value; `scopes` is None when it is not a list. */
  datatype Authentication = Authentication(mode: string, resource: string, scopes: Option<seq<string>>)

  datatype Server = Server(
    enabled: bool,
    authorization: Authorization,
    authentication: Authentication,
    uiName: string,
    url: string)

  /** A registry value: a filled mapping, an empty one, another empty value, or something else. */
  datatype Entry = Entry(server: Server) | EmptyMapping | Blank | NotAMapping

  /** The registry in file order. */
  type Servers = seq<(string, Entry)>

  ghost predicate UniqueIds(registry: Servers) {
    forall i, j | 0 <= i < j < |registry| :: registry[i].0 != registry[j].0
  }

  /** GatewayError codes; Crash is an AttributeError on a malformed registry. */
  datatype GatewayError =
    | ServerNotFound | ToolNotFound | AccessDenied | UnsupportedAuthMode | InvalidRegistry
    | TokenExchangeFailed | InvalidToken | MethodNotFound | Crash

  function Find(registry: Servers, id: string): Entry {
    if registry == [] then Blank
    else if registry[0].0 == id then registry[0].1
    else Find(registry[1..], id)
  }

  /** `get_server`. */
  function GetServer(registry: Servers, id: string): Result<Server, GatewayError> {
    match Find(registry, id)
    case Blank => Err(ServerNotFound)
    case EmptyMapping => Err(ServerNotFound)
    case NotAMapping => Err(Crash)
    case Entry(server) => if server.enabled then Ok(server) else Err(ServerNotFound)
  }

  /** `authorize_tool`. */
  function AuthorizeTool(roles: set<string>, server: Server, tool: string): Result<(), GatewayError> {
    match server.authorization
    case NoAuthorization => Err(ToolNotFound)
    case NullAuthorization => Err(Crash)
    case Authorization(allowed, required) =>
      if tool !in allowed then Err(ToolNotFound)
      else if required != {} && !(required <= roles) then Err(AccessDenied)
      else Ok(())
  }

  /** `url.rstrip("/")`. */
  function NormalizeUrl(url: string): (r: string)
    ensures r <= url && (r == "" || r[|r| - 1] != '/')
    ensures forall i | |r| <= i < |url| :: url[i] == '/'
  {
    if url == "" || url[|url| - 1] != '/' then url else NormalizeUrl(url[..|url| - 1])
  }

  datatype ListedServer = ListedServer(id: string, name: string, tools: seq<string>, url: string)

  function AllowedTools(entry: Entry): seq<string> {
    if entry.Entry? && entry.server.authorization.Authorization? then entry.server.authorization.allowedTools else []
  }

  function RequiredRoles(entry: Entry): set<string> {
    if entry.Entry? && entry.server.authorization.Authorization? then entry.server.authorization.requiredRoles else {}
  }

  /** What the listing shows for one registry entry, if anything. */
  function ListEntry(id: string, entry: Entry, roles: set<string>, base: string): Option<ListedServer> {
    if entry.Blank? || entry.NotAMapping? || (entry.Entry? && !entry.server.enabled) then None
    else if RequiredRoles(entry) != {} && !(RequiredRoles(entry) <= roles) then None
    else
      var name := if entry.Entry? && entry.server.uiName != "" then entry.server.uiName else id;
      Some(ListedServer(id, name, AllowedTools(entry), base + "/mcp/" + id))
  }

  function Listing(registry: Servers, roles: set<string>, base: string): seq<ListedServer> {
    if registry == [] then []
    else
      var n := |registry| - 1;
      var listed := ListEntry(registry[n].0, registry[n].1, roles, base);
      Listing(registry[..n], roles, base) + if listed.Some? then [listed.value] else []
  }

  /** `list_enabled_servers`. */
  method ListEnabledServers(registry: Servers, roles: set<string>, publicBaseUrl: string)
    returns (listed: seq<ListedServer>)
    ensures listed == Listing(registry, roles, NormalizeUrl(publicBaseUrl))
    ensures UniqueIds(registry) ==>
              forall id, tool :: (exists l | l in listed :: l.id == id && tool in l.tools)
                                 <==> Permitted(registry, roles, id, tool)
  {
    listed := [];
    var base := NormalizeUrl(publicBaseUrl);
    for i := 0 to |registry|
      invariant listed == Listing(registry[..i], roles, base)
    {
      assert registry[..i + 1][..i] == registry[..i];
      var (id, entry) := registry[i];
      if !entry.Blank? && !entry.NotAMapping? && (entry.Entry? ==> entry.server.enabled) {
        var required := RequiredRoles(entry);
        if required == {} || required <= roles {
          var name := if entry.Entry? && entry.server.uiName != "" then entry.server.uiName else id;
          listed := listed + [ListedServer(id, name, AllowedTools(entry), base + "/mcp/" + id)];
        }
      }
    }
    assert registry[..|registry|] == registry;
    if UniqueIds(registry) {
      forall id, tool
        ensures Shown(registry, roles, base, id, tool) <==> Permitted(registry, roles, id, tool)
      {
        ShownIffPermitted(registry, roles, base, id, tool);
      }
    }
  }

  /** The caller sees this tool under this server in the listing. */
  ghost predicate Shown(registry: Servers, roles: set<string>, base: string, id: string, tool: string) {
    exists l | l in Listing(registry, roles, base) :: l.id == id && tool in l.tools
  }

  /** A call of this tool would get past lookup and policy. */
  ghost predicate Permitted(registry: Servers, roles: set<string>, id: string, tool: string) {
    var server := GetServer(registry, id);
    server.Ok? && AuthorizeTool(roles, server.value, tool).Ok?
  }

  lemma {:induction false} FindAt(registry: Servers, i: nat)
    requires UniqueIds(registry) && i < |registry|
    ensures Find(registry, registry[i].0) == registry[i].1
  {
    if i > 0 {
      FindAt(registry[1..], i - 1);
    }
  }

  lemma {:induction false} FindIsAt(registry: Servers, id: string)
    ensures Find(registry, id) == Blank || exists i | 0 <= i < |registry| :: registry[i] == (id, Find(registry, id))
  {
    if registry != [] && registry[0].0 != id {
      FindIsAt(registry[1..], id);
      if Find(registry, id) != Blank {
        var i :| 0 <= i < |registry| - 1 && registry[1..][i] == (id, Find(registry, id));
        assert registry[i + 1] == (id, Find(registry, id));
      }
    } else if registry != [] {
      assert registry[0] == (id, Find(registry, id));
    }
  }

  lemma {:induction false} ListingMeaning(registry: Servers, roles: set<string>, base: string)
    ensures forall l | l in Listing(registry, roles, base) ::
              exists i | 0 <= i < |registry| :: ListEntry(registry[i].0, registry[i].1, roles, base) == Some(l)
    ensures forall i | 0 <= i < |registry| && ListEntry(registry[i].0, registry[i].1, roles, base).Some? ::
              ListEntry(registry[i].0, registry[i].1, roles, base).value in Listing(registry, roles, base)
  {
    if registry != [] {
      var n := |registry| - 1;
      ListingMeaning(registry[..n], roles, base);
      assert forall i | 0 <= i < n :: registry[..n][i] == registry[i];
    }
  }

  lemma EntryShownIff(id: string, entry: Entry, roles: set<string>, base: string, tool: string)
    ensures (ListEntry(id, entry, roles, base).Some? && tool in ListEntry(id, entry, roles, base).value.tools) <==>
            entry.Entry? && entry.server.enabled && AuthorizeTool(roles, entry.server, tool).Ok?
  {}

  /** A caller is shown exactly the tools it is permitted to call. */
  lemma ShownIffPermitted(registry: Servers, roles: set<string>, base: string, id: string, tool: string)
    requires UniqueIds(registry)
    ensures Shown(registry, roles, base, id, tool) <==> Permitted(registry, roles, id, tool)
  {
    ListingMeaning(registry, roles, base);
    if Shown(registry, roles, base, id, tool) {
      var l :| l in Listing(registry, roles, base) && l.id == id && tool in l.tools;
      var i :| 0 <= i < |registry| && ListEntry(registry[i].0, registry[i].1, roles, base) == Some(l);
      FindAt(registry, i);
      EntryShownIff(registry[i].0, registry[i].1, roles, base, tool);
    }
    if Permitted(registry, roles, id, tool) {
      FindIsAt(registry, id);
      var i :| 0 <= i < |registry| && registry[i] == (id, Find(registry, id));
      EntryShownIff(id, registry[i].1, roles, base, tool);
    }
  }

  /** More roles never hide a tool. */
  lemma MoreRolesShowMore(registry: Servers, roles: set<string>, more: set<string>, base: string,
                          id: string, tool: string)
    requires UniqueIds(registry) && roles <= more && Shown(registry, roles, base, id, tool)
    ensures Shown(registry, more, base, id, tool)
  {
    ShownIffPermitted(registry, roles, base, id, tool);
    ShownIffPermitted(registry, more, base, id, tool);
  }
}
