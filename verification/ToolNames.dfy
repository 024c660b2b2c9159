/** The names under which gateway tools are offered to the model, and how they are taken apart. */
module ToolNames {
  import opened Wrappers
  import opened Grouping
  import Text

  const SEP := "__"

  function LlmToolName(serverId: string, tool: string): string {
    serverId + SEP + tool
  }

  /** `mcp_tool_name_from_llm`. */
  function McpToolName(llmName: string, serverId: string): string {
    if serverId + SEP <= llmName then llmName[|serverId| + |SEP|..] else llmName
  }

  /** The position of the first double underscore, or the length if there is none. */
  function FirstSep(s: string): (i: nat)
    ensures i <= |s|
    ensures i < |s| ==> Text.OccursAt(s, SEP, i)
    ensures forall j: nat | j < i :: !Text.OccursAt(s, SEP, j)
  {
    if s == "" then 0
    else if SEP <= s then
      assert s[0..|SEP|] == SEP;
      0
    else
      var i := FirstSep(s[1..]);
      assert forall j: nat | j < i :: !Text.OccursAt(s[1..], SEP, j);
      assert i < |s| - 1 ==> i + 2 <= |s[1..]| && s[1..][i..i + 2] == s[i + 1..i + 3];
      assert forall j: nat | 0 < j <= i :: Text.OccursAt(s, SEP, j) ==> Text.OccursAt(s[1..], SEP, j - 1) by {
        forall j: nat | 0 < j <= i && Text.OccursAt(s, SEP, j)
          ensures Text.OccursAt(s[1..], SEP, j - 1)
        {
          assert s[1..][j - 1..j + 1] == s[j..j + 2];
        }
      }
      if i == |s| - 1 then |s| else i + 1
  }

  /** `_tool_aliases`: the name itself and what follows its first double underscore. */
  function Aliases(llmName: string): set<string> {
    {llmName} + if FirstSep(llmName) < |llmName| then {llmName[FirstSep(llmName) + |SEP|..]} else {}
  }

  /** A server id that cannot blur where it ends. */
  predicate CleanId(serverId: string) {
    !Text.Contains(serverId, SEP) && (serverId == "" || serverId[|serverId| - 1] != '_')
  }

  lemma OccurrenceBeforeEnd(serverId: string, tool: string, j: nat)
    requires j < |serverId|
    ensures Text.OccursAt(LlmToolName(serverId, tool), SEP, j) <==>
            Text.OccursAt(serverId, SEP, j) || (j == |serverId| - 1 && serverId[j] == '_')
  {
    var name := LlmToolName(serverId, tool);
    assert name[j..j + 2] == [name[j], name[j + 1]];
    if j + 2 <= |serverId| {
      assert serverId[j..j + 2] == [serverId[j], serverId[j + 1]];
    }
  }

  /** The first double underscore ends the server id exactly when the id is clean. */
  lemma FirstSepIffClean(serverId: string, tool: string)
    ensures FirstSep(LlmToolName(serverId, tool)) == |serverId| <==> CleanId(serverId)
  {
    var name, n := LlmToolName(serverId, tool), |serverId|;
    assert name[n..n + 2] == SEP;
    assert Text.OccursAt(name, SEP, n);
    if CleanId(serverId) {
      forall j: nat | j < n
        ensures !Text.OccursAt(name, SEP, j)
      {
        OccurrenceBeforeEnd(serverId, tool, j);
      }
    } else {
      var j: nat :| j < n && (Text.OccursAt(serverId, SEP, j) || (j == n - 1 && serverId[j] == '_'));
      OccurrenceBeforeEnd(serverId, tool, j);
    }
  }

  /** Stripping the prefix always recovers the listed tool name. */
  lemma StrippingRecovers(serverId: string, tool: string)
    ensures McpToolName(LlmToolName(serverId, tool), serverId) == tool
  {}

  /** For a clean id the alias is the listed tool name, whatever that contains. */
  lemma AliasIsTool(serverId: string, tool: string)
    requires CleanId(serverId)
    ensures Aliases(LlmToolName(serverId, tool)) == {LlmToolName(serverId, tool), tool}
  {
    FirstSepIffClean(serverId, tool);
  }

  /**
   Two servers, clean or not, can produce one name exactly when one id with its separator is a
   prefix of the other with its.
  */
  lemma IdsCollideIff(s: string, t: string)
    ensures (exists x, y :: LlmToolName(s, x) == LlmToolName(t, y)) <==> s + SEP <= t + SEP || t + SEP <= s + SEP
  {
    if x, y :| LlmToolName(s, x) == LlmToolName(t, y) {
      PrefixesOfOne(s + SEP, x, t + SEP, y);
    }
    if s + SEP <= t + SEP {
      assert LlmToolName(s, (t + SEP)[|s + SEP|..]) == LlmToolName(t, "");
    } else if t + SEP <= s + SEP {
      assert LlmToolName(s, "") == LlmToolName(t, (s + SEP)[|t + SEP|..]);
    }
  }

  lemma PrefixesOfOne(p: string, x: string, q: string, y: string)
    requires p + x == q + y
    ensures p <= q || q <= p
  {
    var name := p + x;
    assert name[..|p|] == p && name[..|q|] == q;
  }

  /** Clean ids make the name unambiguous. */
  lemma NamesAreInjective(s: string, t: string, tool: string, other: string)
    requires CleanId(s) && CleanId(t) && LlmToolName(s, tool) == LlmToolName(t, other)
    ensures s == t && tool == other
  {
    FirstSepIffClean(s, tool);
    FirstSepIffClean(t, other);
    assert LlmToolName(s, tool)[..|s|] == s && LlmToolName(t, other)[..|t|] == t;
    assert LlmToolName(s, tool)[|s| + 2..] == tool && LlmToolName(t, other)[|t| + 2..] == other;
  }

  /** Every unclean id can be confused with another server's. */
  lemma UncleanIdsCollide(s: string) returns (t: string, tool: string, other: string)
    requires !CleanId(s)
    ensures (s, tool) != (t, other) && LlmToolName(s, tool) == LlmToolName(t, other)
  {
    if s != "" && s[|s| - 1] == '_' {
      t, tool, other := s[..|s| - 1], "x", "_x";
    } else {
      var i :| 0 <= i <= |s| && Text.OccursAt(s, SEP, i);
      t, tool := s[..i], "x";
      other := s[i + 2..] + SEP + tool;
      assert s == s[..i] + SEP + s[i + 2..];
    }
  }

  // ---------------------------------------------------------------- the catalog

  datatype Tool = Tool(name: string, description: Option<string>, schema: Option<string>)

  datatype OpenAiTool = OpenAiTool(name: string, description: string, parameters: string)

  const EMPTY_SCHEMA := "{\"type\": \"object\", \"properties\": {}}"

  function OpenAi(tool: Tool): OpenAiTool {
    OpenAiTool(tool.name,
               if tool.description.Some? then tool.description.value else "",
               if tool.schema.Some? then tool.schema.value else EMPTY_SCHEMA)
  }

  function Describe(name: string, description: Option<string>): string {
    var cleaned := Text.Strip(if description.Some? then description.value else "");
    var lead := "MCP tool " + name + ".";
    if cleaned == "" then lead else lead + " " + cleaned
  }

  function Prefixed(serverId: string, tool: Tool): Tool {
    tool.(name := LlmToolName(serverId, tool.name), description := Some(Describe(tool.name, tool.description)))
  }

  type Listing = seq<(string, seq<Tool>)>

  /** A server's tool under the server's id, ready to be named. */
  datatype Offer = Offer(serverId: string, tool: Tool)

  function OfferName(offer: Offer): string {
    LlmToolName(offer.serverId, offer.tool.name)
  }

  function Offered(offer: Offer): OpenAiTool {
    OpenAi(Prefixed(offer.serverId, offer.tool))
  }

  function OffersOf(serverId: string, tools: seq<Tool>): seq<Offer> {
    if tools == [] then []
    else
      var n := |tools| - 1;
      OffersOf(serverId, tools[..n]) + if tools[n].name == "" then [] else [Offer(serverId, tools[n])]
  }

  /** Every named tool of every server, in listing order. */
  function Offers(servers: Listing): seq<Offer> {
    if servers == [] then []
    else
      var n := |servers| - 1;
      Offers(servers[..n]) + OffersOf(servers[n].0, servers[n].1)
  }

  /** The offers that get into the catalog: the first of each name. */
  function Kept(offers: seq<Offer>): seq<Offer> {
    FirstByName({}, offers, OfferName)
  }

  ghost predicate TargetsOf(targets: map<string, (string, string)>, kept: seq<Offer>) {
    && (forall name :: name in targets <==> Named(kept, name, OfferName))
    && (forall k | k in kept :: OfferName(k) in targets && targets[OfferName(k)] == (k.serverId, k.tool.name))
  }

  lemma TargetsExtend(targets: map<string, (string, string)>, kept: seq<Offer>, offer: Offer)
    requires TargetsOf(targets, kept) && OfferName(offer) !in targets
    ensures TargetsOf(targets[OfferName(offer) := (offer.serverId, offer.tool.name)], kept + [offer])
  {
    var more := kept + [offer];
    forall name
      ensures name in targets || name == OfferName(offer) <==> Named(more, name, OfferName)
    {
      if name in targets {
        var i :| 0 <= i < |kept| && OfferName(kept[i]) == name;
        assert OfferName(more[i]) == name;
      }
      assert OfferName(more[|kept|]) == OfferName(offer);
    }
    forall k | k in more && k != offer
      ensures OfferName(k) in targets && OfferName(k) != OfferName(offer)
    {
      assert k in kept;
    }
  }

  lemma KeptStep(offers: seq<Offer>, offer: Offer, targets: map<string, (string, string)>)
    requires TargetsOf(targets, Kept(offers))
    ensures Kept(offers + [offer]) == if OfferName(offer) in targets then Kept(offers) else Kept(offers) + [offer]
  {}

  /** The loop body of `catalog_from_listed_tools` for a named tool. */
  method AddToCatalog(ghost offers: seq<Offer>, offer: Offer, tools: seq<OpenAiTool>,
                      targets: map<string, (string, string)>)
    returns (moreTools: seq<OpenAiTool>, moreTargets: map<string, (string, string)>)
    requires tools == Map(Offered, Kept(offers)) && TargetsOf(targets, Kept(offers))
    ensures moreTools == Map(Offered, Kept(offers + [offer])) && TargetsOf(moreTargets, Kept(offers + [offer]))
  {
    KeptStep(offers, offer, targets);
    ghost var kept := Kept(offers);
    var name := OfferName(offer);
    if name in targets {
      return tools, targets;
    }
    MapStep(Offered, kept, offer);
    TargetsExtend(targets, kept, offer);
    moreTargets := targets[name := (offer.serverId, offer.tool.name)];
    moreTools := tools + [Offered(offer)];
  }

  lemma OffersStep(offers: seq<Offer>, serverId: string, listed: seq<Tool>, j: nat)
    requires j < |listed|
    ensures var sofar := offers + OffersOf(serverId, listed[..j]);
            offers + OffersOf(serverId, listed[..j + 1])
            == if listed[j].name == "" then sofar else sofar + [Offer(serverId, listed[j])]
  {
    assert listed[..j + 1][..j] == listed[..j];
  }

  /** One server's pass. */
  method AddServer(ghost offers: seq<Offer>, serverId: string, listed: seq<Tool>, tools: seq<OpenAiTool>,
                   targets: map<string, (string, string)>)
    returns (moreTools: seq<OpenAiTool>, moreTargets: map<string, (string, string)>)
    requires tools == Map(Offered, Kept(offers)) && TargetsOf(targets, Kept(offers))
    ensures moreTools == Map(Offered, Kept(offers + OffersOf(serverId, listed)))
    ensures TargetsOf(moreTargets, Kept(offers + OffersOf(serverId, listed)))
  {
    moreTools, moreTargets := tools, targets;
    assert offers + [] == offers;
    for j := 0 to |listed|
      invariant moreTools == Map(Offered, Kept(offers + OffersOf(serverId, listed[..j])))
      invariant TargetsOf(moreTargets, Kept(offers + OffersOf(serverId, listed[..j])))
    {
      ghost var sofar := offers + OffersOf(serverId, listed[..j]);
      OffersStep(offers, serverId, listed, j);
      if listed[j].name != "" {
        moreTools, moreTargets := AddToCatalog(sofar, Offer(serverId, listed[j]), moreTools, moreTargets);
      }
    }
    assert listed[..|listed|] == listed;
  }

  /** `catalog_from_listed_tools`. */
  method CatalogFromListedTools(servers: Listing)
    returns (tools: seq<OpenAiTool>, targets: map<string, (string, string)>)
    ensures tools == Map(Offered, Kept(Offers(servers)))
    ensures TargetsOf(targets, Kept(Offers(servers)))
  {
    tools, targets := [], map[];
    for i := 0 to |servers|
      invariant tools == Map(Offered, Kept(Offers(servers[..i])))
      invariant TargetsOf(targets, Kept(Offers(servers[..i])))
    {
      assert servers[..i + 1][..i] == servers[..i];
      tools, targets := AddServer(Offers(servers[..i]), servers[i].0, servers[i].1, tools, targets);
    }
    assert servers[..|servers|] == servers;
  }

  /**
   With clean server ids the catalog is unambiguous: every named tool that a server listed is in
   it, and its name leads back to that server and that tool.
  */
  lemma CatalogIsExact(servers: Listing, targets: map<string, (string, string)>, offer: Offer)
    requires TargetsOf(targets, Kept(Offers(servers)))
    requires forall o | o in Offers(servers) :: CleanId(o.serverId)
    requires offer in Offers(servers)
    ensures OfferName(offer) in targets && targets[OfferName(offer)] == (offer.serverId, offer.tool.name)
  {
    var offers, kept := Offers(servers), Kept(Offers(servers));
    FirstByNameKeepsNames({}, offers, OfferName);
    var i :| 0 <= i < |offers| && offers[i] == offer;
    assert Named(kept, OfferName(offer), OfferName);
    var k :| 0 <= k < |kept| && OfferName(kept[k]) == OfferName(offer);
    assert kept[k] in kept && kept[k] in offers;
    NamesAreInjective(offer.serverId, kept[k].serverId, offer.tool.name, kept[k].tool.name);
  }
}
