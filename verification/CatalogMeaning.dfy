/** Which tools of several listed servers get into the catalog, in which order, and where their names lead. */
module CatalogMeaning {
  import opened Wrappers
  import opened Grouping
  import opened Positions
  import opened ToolNames
  import OM = OfferMeaning

  /** The tool at a place of a server's listing. */
  datatype Source = Source(server: nat, place: nat)

  /** It is there, and it has a name. */
  ghost predicate Stands(servers: Listing, s: Source) {
    s.server < |servers| && s.place in OM.NamedPlaces(servers[s.server].1)
  }

  ghost function IdOf(servers: Listing, s: Source): string
    requires Stands(servers, s)
  {
    servers[s.server].0
  }

  ghost function ToolOf(servers: Listing, s: Source): Tool
    requires Stands(servers, s)
  {
    servers[s.server].1[s.place]
  }

  predicate Before(s: Source, t: Source) {
    s.server < t.server || (s.server == t.server && s.place < t.place)
  }

  // ---------------------------------------------------------------- all offers

  ghost predicate Sources(servers: Listing, offers: seq<Offer>, src: seq<Source>) {
    && |src| == |offers|
    && (forall i | 0 <= i < |src| ::
          Stands(servers, src[i]) && offers[i] == Offer(IdOf(servers, src[i]), ToolOf(servers, src[i])))
    && (forall i, j :: 0 <= i < j < |src| ==> Before(src[i], src[j]))
  }

  ghost predicate Covers(servers: Listing, src: seq<Source>) {
    forall s | Stands(servers, s) :: s in src
  }

  ghost predicate OffersFrom(serverId: string, tools: seq<Tool>, offers: seq<Offer>, at: seq<nat>) {
    && Ascending(at, OM.NamedPlaces(tools))
    && |offers| == |at|
    && forall k | 0 <= k < |at| :: at[k] < |tools| && offers[k] == Offer(serverId, tools[at[k]])
  }

  lemma OffersNext(serverId: string, tools: seq<Tool>, tool: Tool, offers: seq<Offer>, at: seq<nat>)
    requires OffersFrom(serverId, tools, offers, at)
    ensures if tool.name != ""
            then OffersFrom(serverId, tools + [tool], offers + [Offer(serverId, tool)], at + [|tools|])
            else OffersFrom(serverId, tools + [tool], offers, at)
  {
    var before, after := OM.NamedPlaces(tools), OM.NamedPlaces(tools + [tool]);
    assert after == if tool.name != "" then before + {|tools|} else before;
    NextPlace(at, before, |tools|, tool.name != "", after);
  }

  lemma {:induction false} OfferPlaces(serverId: string, tools: seq<Tool>) returns (at: seq<nat>)
    ensures OffersFrom(serverId, tools, OffersOf(serverId, tools), at)
  {
    at := [];
    if tools != [] {
      var n := |tools| - 1;
      at := OfferPlaces(serverId, tools[..n]);
      OffersNext(serverId, tools[..n], tools[n], OffersOf(serverId, tools[..n]), at);
      assert tools == tools[..n] + [tools[n]];
      if tools[n].name != "" {
        at := at + [n];
      }
    }
  }

  ghost function SourcesAt(server: nat, at: seq<nat>): (r: seq<Source>)
    ensures |r| == |at| && forall k | 0 <= k < |at| :: r[k] == Source(server, at[k])
  {
    seq(|at|, k requires 0 <= k < |at| => Source(server, at[k]))
  }

  lemma SourcesGrow(servers: Listing, next: (string, seq<Tool>), offers: seq<Offer>, src: seq<Source>,
                    more: seq<Offer>, at: seq<nat>)
    requires Sources(servers, offers, src) && OffersFrom(next.0, next.1, more, at)
    ensures Sources(servers + [next], offers + more, src + SourcesAt(|servers|, at))
  {
    var now, all := servers + [next], src + SourcesAt(|servers|, at);
    forall i | 0 <= i < |all|
      ensures Stands(now, all[i]) && (offers + more)[i] == Offer(IdOf(now, all[i]), ToolOf(now, all[i]))
    {
      if i < |src| {
        assert all[i] == src[i] && now[src[i].server] == servers[src[i].server];
      } else {
        assert all[i] == Source(|servers|, at[i - |src|]);
      }
    }
    forall i, j | 0 <= i < j < |all|
      ensures Before(all[i], all[j])
    {
      if i < |src| {
        assert all[i] == src[i] && Stands(servers, src[i]);
        if j < |src| {
          assert all[j] == src[j];
        }
      }
    }
  }

  lemma CoversGrow(servers: Listing, next: (string, seq<Tool>), src: seq<Source>, at: seq<nat>)
    requires Covers(servers, src) && Ascending(at, OM.NamedPlaces(next.1))
    ensures Covers(servers + [next], src + SourcesAt(|servers|, at))
  {
    var now, more := servers + [next], SourcesAt(|servers|, at);
    forall s | Stands(now, s)
      ensures s in src + more
    {
      if s.server < |servers| {
        assert now[s.server] == servers[s.server] && Stands(servers, s);
      } else {
        var k := PlaceOf(at, OM.NamedPlaces(next.1), s.place);
        assert more[k] == s;
      }
    }
  }

  lemma {:induction false} SourcesOfOffers(servers: Listing) returns (src: seq<Source>)
    ensures Sources(servers, Offers(servers), src) && Covers(servers, src)
  {
    src := [];
    if servers != [] {
      var n := |servers| - 1;
      src := SourcesOfOffers(servers[..n]);
      var at := OfferPlaces(servers[n].0, servers[n].1);
      SourcesGrow(servers[..n], servers[n], Offers(servers[..n]), src, OffersOf(servers[n].0, servers[n].1), at);
      CoversGrow(servers[..n], servers[n], src, at);
      assert servers == servers[..n] + [servers[n]];
      src := src + SourcesAt(n, at);
    }
  }

  // ---------------------------------------------------------------- the catalog

  /** The id and the tool's own name with two underscores between. */
  ghost function CatalogName(servers: Listing, s: Source): string
    requires Stands(servers, s)
  {
    IdOf(servers, s) + "__" + ToolOf(servers, s).name
  }

  /** No tool before it has its name. */
  ghost predicate First(servers: Listing, s: Source) {
    Stands(servers, s)
    && forall t | Stands(servers, t) && Before(t, s) :: CatalogName(servers, t) != CatalogName(servers, s)
  }

  lemma FirstIffFirstAt(servers: Listing, offers: seq<Offer>, all: seq<Source>, i: nat)
    requires Sources(servers, offers, all) && Covers(servers, all) && i < |all|
    ensures First(servers, all[i]) <==> FirstAt(offers, i, OfferName)
  {
    assert forall j | 0 <= j < |all| :: OfferName(offers[j]) == CatalogName(servers, all[j]);
    if First(servers, all[i]) {
      assert forall j | 0 <= j < i :: Stands(servers, all[j]) && Before(all[j], all[i]);
    } else {
      var t :| Stands(servers, t) && Before(t, all[i]) && CatalogName(servers, t) == CatalogName(servers, all[i]);
      var j :| 0 <= j < |all| && all[j] == t;
    }
  }

  /** These are all the tools that are first of their name, in the order of the listing. */
  ghost predicate IsCatalog(servers: Listing, src: seq<Source>) {
    && (forall k | 0 <= k < |src| :: First(servers, src[k]))
    && (forall j, k :: 0 <= j < k < |src| ==> Before(src[j], src[k]))
    && (forall s | First(servers, s) :: s in src)
  }

  lemma ChosenAreCatalog(servers: Listing, offers: seq<Offer>, all: seq<Source>, kept: seq<Offer>, at: seq<nat>)
    requires Sources(servers, offers, all) && Covers(servers, all) && FirstsOf(offers, OfferName, kept, at)
    ensures IsCatalog(servers, Chosen(all, at))
  {
    var src := Chosen(all, at);
    forall k | 0 <= k < |src|
      ensures First(servers, src[k])
    {
      assert at[k] in FirstPlaces(offers, OfferName);
      FirstIffFirstAt(servers, offers, all, at[k]);
    }
    forall s | First(servers, s)
      ensures s in src
    {
      var i :| 0 <= i < |all| && all[i] == s;
      FirstIffFirstAt(servers, offers, all, i);
      var k := PlaceOf(at, FirstPlaces(offers, OfferName), i);
      assert src[k] == s;
    }
  }

  /** The names and fields of these tools, and where their names lead. */
  ghost predicate ShownAs(servers: Listing, src: seq<Source>, tools: seq<OpenAiTool>,
                          targets: map<string, (string, string)>)
    requires forall k | 0 <= k < |src| :: Stands(servers, src[k])
  {
    && |tools| == |src|
    && (forall k | 0 <= k < |src| ::
          && OM.ToldAs(ToolOf(servers, src[k]), CatalogName(servers, src[k]),
                       OM.Introduction(ToolOf(servers, src[k])), tools[k])
          && CatalogName(servers, src[k]) in targets
          && targets[CatalogName(servers, src[k])] == (IdOf(servers, src[k]), ToolOf(servers, src[k]).name))
    && (forall name | name in targets :: exists k :: 0 <= k < |src| && CatalogName(servers, src[k]) == name)
  }

  lemma KeptAreShown(servers: Listing, kept: seq<Offer>, src: seq<Source>, targets: map<string, (string, string)>)
    requires Sources(servers, kept, src) && TargetsOf(targets, kept)
    ensures ShownAs(servers, src, Map(Offered, kept), targets)
  {
    forall k | 0 <= k < |src|
      ensures OM.ToldAs(ToolOf(servers, src[k]), CatalogName(servers, src[k]),
                        OM.Introduction(ToolOf(servers, src[k])), Offered(kept[k]))
      ensures OfferName(kept[k]) == CatalogName(servers, src[k]) && kept[k] in kept
    {
      OM.PrefixedIsTold(IdOf(servers, src[k]), ToolOf(servers, src[k]));
    }
    forall name | name in targets
      ensures exists k :: 0 <= k < |src| && CatalogName(servers, src[k]) == name
    {
      var k :| 0 <= k < |kept| && OfferName(kept[k]) == name;
      assert CatalogName(servers, src[k]) == name;
    }
  }

  /**
   The catalog lists the named tools of the servers one after another, each name once and from the
   first tool that has it, and the name leads to that tool's server and own name.
  */
  lemma CatalogDoes(servers: Listing, targets: map<string, (string, string)>) returns (src: seq<Source>)
    requires TargetsOf(targets, Kept(Offers(servers)))
    ensures IsCatalog(servers, src) && ShownAs(servers, src, Map(Offered, Kept(Offers(servers))), targets)
  {
    var offers, kept := Offers(servers), Kept(Offers(servers));
    var all := SourcesOfOffers(servers);
    var at := KeptPlaces(offers, OfferName);
    src := Chosen(all, at);
    ChosenAreCatalog(servers, offers, all, kept, at);
    assert Sources(servers, kept, src);
    KeptAreShown(servers, kept, src, targets);
  }
}
