/** What the gateway lists for a caller and how it answers a lookup, in terms of the registry file alone. */
module RegistryMeaning {
  import opened Wrappers
  import opened Positions
  import opened Registry

  /** The server demands no role that the caller lacks. */
  ghost predicate RolesSuffice(server: Server, roles: set<string>) {
    match server.authorization
    case Authorization(_, required) => forall role | role in required :: role in roles
    case _ => true
  }

  /** An empty mapping is listed; of the others every enabled server for whose roles the caller has. */
  ghost predicate Listable(entry: Entry, roles: set<string>) {
    entry.EmptyMapping? || (entry.Entry? && entry.server.enabled && RolesSuffice(entry.server, roles))
  }

  /** An entry is shown under its id, by its display name or else its id, with its own tools and address. */
  ghost predicate ShownAs(id: string, entry: Entry, base: string, l: ListedServer) {
    && l.id == id
    && l.url == base + "/mcp/" + id
    && l.name == (if entry.Entry? && entry.server.uiName != "" then entry.server.uiName else id)
    && l.tools == match entry
                  case Entry(Server(_, Authorization(allowed, _), _, _, _)) => allowed
                  case _ => []
  }

  lemma EntryIsShown(id: string, entry: Entry, roles: set<string>, base: string)
    ensures ListEntry(id, entry, roles, base).Some? <==> Listable(entry, roles)
    ensures Listable(entry, roles) ==> ShownAs(id, entry, base, ListEntry(id, entry, roles, base).value)
  {}

  ghost function ListablePlaces(registry: Servers, roles: set<string>): set<nat> {
    set i: nat | i < |registry| && Listable(registry[i].1, roles)
  }

  ghost predicate ListedFrom(registry: Servers, roles: set<string>, base: string, listed: seq<ListedServer>,
                             at: seq<nat>)
  {
    && Ascending(at, ListablePlaces(registry, roles))
    && |listed| == |at|
    && forall k | 0 <= k < |at| :: at[k] < |registry| && ShownAs(registry[at[k]].0, registry[at[k]].1, base, listed[k])
  }

  lemma ListedNext(registry: Servers, next: (string, Entry), roles: set<string>, base: string,
                   listed: seq<ListedServer>, at: seq<nat>, l: ListedServer)
    requires ListedFrom(registry, roles, base, listed, at)
    requires Listable(next.1, roles) ==> ShownAs(next.0, next.1, base, l)
    ensures if Listable(next.1, roles) then ListedFrom(registry + [next], roles, base, listed + [l], at + [|registry|])
            else ListedFrom(registry + [next], roles, base, listed, at)
  {
    var n := |registry|;
    var before, after := ListablePlaces(registry, roles), ListablePlaces(registry + [next], roles);
    assert after == if Listable(next.1, roles) then before + {n} else before;
    NextPlace(at, before, n, Listable(next.1, roles), after);
  }

  lemma {:induction false} ListingPlaces(registry: Servers, roles: set<string>, base: string) returns (at: seq<nat>)
    ensures ListedFrom(registry, roles, base, Listing(registry, roles, base), at)
  {
    at := [];
    if registry != [] {
      var n := |registry| - 1;
      var (id, entry) := registry[n];
      at := ListingPlaces(registry[..n], roles, base);
      EntryIsShown(id, entry, roles, base);
      var l := match ListEntry(id, entry, roles, base)
      case Some(shown) => shown
      case None => ListedServer("", "", [], "");
      ListedNext(registry[..n], registry[n], roles, base, Listing(registry[..n], roles, base), at, l);
      assert registry == registry[..n] + [registry[n]];
      if Listable(entry, roles) {
        at := at + [n];
      }
    }
  }

  /** The listing shows the listable entries in file order, addressed below the base URL without its last slashes. */
  lemma ListingDoes(registry: Servers, roles: set<string>, publicBaseUrl: string)
    returns (base: string, slashes: string, at: seq<nat>)
    ensures publicBaseUrl == base + slashes && (base == "" || base[|base| - 1] != '/')
    ensures forall i | 0 <= i < |slashes| :: slashes[i] == '/'
    ensures ListedFrom(registry, roles, base, Listing(registry, roles, NormalizeUrl(publicBaseUrl)), at)
  {
    base := NormalizeUrl(publicBaseUrl);
    slashes := publicBaseUrl[|base|..];
    at := ListingPlaces(registry, roles, base);
  }

  // ---------------------------------------------------------------- lookup

  /** The first entry under this id. */
  ghost predicate Holds(registry: Servers, id: string, entry: Entry) {
    exists i | 0 <= i < |registry| :: registry[i] == (id, entry) && forall j | 0 <= j < i :: registry[j].0 != id
  }

  lemma {:induction false} FindHolds(registry: Servers, id: string)
    ensures if forall i | 0 <= i < |registry| :: registry[i].0 != id then Find(registry, id) == Blank
            else Holds(registry, id, Find(registry, id))
  {
    if registry != [] {
      if registry[0].0 == id {
        assert registry[0] == (id, Find(registry, id));
      } else {
        FindHolds(registry[1..], id);
        if j :| 0 <= j < |registry| && registry[j].0 == id {
          assert registry[1..][j - 1].0 == id;
          var i :| 0 <= i < |registry[1..]| && registry[1..][i] == (id, Find(registry, id))
                   && forall j | 0 <= j < i :: registry[1..][j].0 != id;
          assert registry[i + 1] == (id, Find(registry, id));
          assert forall j | 0 < j < i + 1 :: registry[j] == registry[1..][j - 1];
        }
      }
    }
  }

  lemma HeldIsFound(registry: Servers, id: string, entry: Entry)
    requires Holds(registry, id, entry)
    ensures Find(registry, id) == entry
  {
    FindHolds(registry, id);
    var i :| 0 <= i < |registry| && registry[i] == (id, entry) && forall j | 0 <= j < i :: registry[j].0 != id;
    var k :| 0 <= k < |registry| && registry[k] == (id, Find(registry, id))
             && forall j | 0 <= j < k :: registry[j].0 != id;
    assert i == k;
  }

  /** A lookup finds the enabled server under the id and nothing else; a value that is no mapping crashes. */
  lemma LookupDoes(registry: Servers, id: string)
    ensures forall server ::
              GetServer(registry, id) == Ok(server) <==> server.enabled && Holds(registry, id, Entry(server))
    ensures GetServer(registry, id) == Err(Crash) <==> Holds(registry, id, NotAMapping)
    ensures GetServer(registry, id).Err? ==> GetServer(registry, id).error in {Crash, ServerNotFound}
  {
    FindHolds(registry, id);
    forall entry | Holds(registry, id, entry)
      ensures Find(registry, id) == entry
    {
      HeldIsFound(registry, id, entry);
    }
  }

  /** A call passes the policy if the tool is allowed and the roles suffice; the two failures are told apart. */
  lemma PolicyDoes(roles: set<string>, server: Server, tool: string)
    ensures var answer := AuthorizeTool(roles, server, tool);
            match server.authorization
            case NoAuthorization => answer == Err(ToolNotFound)
            case NullAuthorization => answer == Err(Crash)
            case Authorization(allowed, required) =>
              && (answer == Ok(()) <==> tool in allowed && RolesSuffice(server, roles))
              && (answer == Err(ToolNotFound) <==> tool !in allowed)
              && (answer == Err(AccessDenied) <==> tool in allowed && exists role :: role in required && role !in roles)
  {}
}
