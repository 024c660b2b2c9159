/**
 The gateway's request handling as a state machine: requests interleave wherever one awaits its
 body or the token endpoint, and share the token cache.
*/
module GatewayPipeline {
  import opened Wrappers
  import opened Registry
  import TC = TokenCache

  datatype Principal = Principal(token: string, roles: set<string>)

  datatype Request = Request(principal: Principal, serverId: string, rpcMethod: string, tool: string)

  datatype Config = Config(registry: Servers, sha256: string -> string, maxTtl: real)

  /** The lister or the caller being given a token at a clock read. */
  datatype Handoff = Handoff(request: Request, token: string, at: real)

  datatype Pc = Arrived(request: Request) | Exchanging(request: Request)

  /** When the token was issued, when the gateway dated it, and the two clock reads of the put. */
  datatype Timing = Timing(issuedAt: real, read: real, first: real, second: real)

  /** A token as the token endpoint issued it. */
  datatype Grant = Grant(token: string, expiresIn: int, timing: Timing)

  /** What the token endpoint granted for a subject token and scopes. */
  datatype Exchange = Exchange(source: string, scopes: seq<string>, grant: Grant)

  /** `accepted` pairs a token with the resource that it was verified for. */
  datatype State = State(
    entries: TC.Entries,
    exchanges: set<Exchange>,
    accepted: set<(string, string)>,
    handed: seq<Handoff>,
    requests: map<nat, Pc>)

  datatype Reply = Refused | Issued(token: string, expiresIn: int)

  datatype Step =
    | Arrive(id: nat, request: Request)
    | Route(id: nat, now: real)
    | Exchanged(id: nat, reply: Reply, verified: bool, timing: Timing)

  const EXCHANGE_MODE := "keycloak_token_exchange"

  /** `_server_authentication`. */
  function ServerAuthentication(server: Server): Result<Authentication, GatewayError> {
    var auth := server.authentication;
    if auth.mode != EXCHANGE_MODE then Err(UnsupportedAuthMode)
    else if auth.resource == "" || auth.scopes.None? || auth.scopes.value == [] then Err(InvalidRegistry)
    else Ok(auth)
  }

  predicate NeedsDownstream(rpcMethod: string) {
    rpcMethod == "tools/list" || rpcMethod == "tools/call"
  }

  datatype Response = Answered | HandedOver(token: Option<string>)

  /** `dispatch_mcp_method`, up to the call of the lister or the caller. */
  function Dispatch(request: Request, server: Server, token: Option<string>): Result<Response, GatewayError> {
    if request.rpcMethod == "initialize" then Ok(Answered)
    else if "notifications/" <= request.rpcMethod then Ok(Answered)
    else if request.rpcMethod == "ping" then Ok(Answered)
    else if request.rpcMethod == "tools/list" then Ok(HandedOver(token))
    else if request.rpcMethod == "tools/call" then
      match AuthorizeTool(request.principal.roles, server, request.tool)
      case Err(e) => Err(e)
      case Ok(_) => Ok(HandedOver(token))
    else Err(MethodNotFound)
  }

  /** Everything that `mcp_endpoint` checks before it needs a token: the server and its authentication. */
  function Admit(config: Config, request: Request): Result<(Server, Authentication), GatewayError> {
    match GetServer(config.registry, request.serverId)
    case Err(e) => Err(e)
    case Ok(server) =>
      if request.rpcMethod == "tools/call" && AuthorizeTool(request.principal.roles, server, request.tool).Err? then
        Err(AuthorizeTool(request.principal.roles, server, request.tool).error)
      else
        match ServerAuthentication(server)
        case Err(e) => Err(e)
        case Ok(auth) => Ok((server, auth))
  }

  function KeyFor(config: Config, request: Request, auth: Authentication): string
    requires auth.scopes.Some?
  {
    TC.CacheKey(config.sha256, request.principal.token, request.serverId, auth.scopes.value)
  }

  function Close(s: State, id: nat): State {
    s.(requests := s.requests - {id})
  }

  /** Dispatching with a token: the token reaches the lister or the caller unless the dispatch fails. */
  function HandOver(s: State, id: nat, request: Request, server: Server, token: string, at: real): State {
    var response := Dispatch(request, server, Some(token));
    var handed := if response.Ok? && response.value.HandedOver? then [Handoff(request, token, at)] else [];
    Close(s.(handed := s.handed + handed), id)
  }

  predicate Enabled(s: State, step: Step) {
    match step
    case Arrive(id, _) => id !in s.requests
    case Route(id, _) => id in s.requests && s.requests[id].Arrived?
    case Exchanged(id, _, _, _) => id in s.requests && s.requests[id].Exchanging?
  }

  function RouteRequest(config: Config, s: State, id: nat, request: Request, now: real): State {
    if !NeedsDownstream(request.rpcMethod) then Close(s, id)
    else
      match Admit(config, request)
      case Err(_) => Close(s, id)
      case Ok((server, auth)) =>
        var (entries, cached) := TC.CacheGet(s.entries, KeyFor(config, request, auth), now);
        var read := s.(entries := entries);
        if cached.Some? && cached.value != "" then HandOver(read, id, request, server, cached.value, now)
        else read.(requests := read.requests[id := Exchanging(request)])
  }

  /** A missing or zero `expires_in` counts as five minutes. */
  function Lifetime(expiresIn: int): int {
    if expiresIn == 0 then 300 else expiresIn
  }

  function ExchangeOf(request: Request, auth: Authentication, grant: Grant): Exchange
    requires auth.scopes.Some?
  {
    Exchange(request.principal.token, auth.scopes.value, grant)
  }

  /** The expiry that the gateway computes, from its own clock. */
  function ExpiresAt(g: Grant): real {
    g.timing.read + Lifetime(g.expiresIn) as real
  }

  /** Records an exchange whose token was accepted for the resource and put into the cache. */
  function Store(config: Config, s: State, key: string, e: Exchange, resource: string): State {
    s.(exchanges := s.exchanges + {e},
       accepted := s.accepted + {(e.grant.token, resource)},
       entries := TC.CachePut(s.entries, config.maxTtl, key, e.grant.token, ExpiresAt(e.grant),
                              e.grant.timing.first, e.grant.timing.second))
  }

  function FinishExchange(config: Config, s: State, id: nat, request: Request, reply: Reply, verified: bool,
                          timing: Timing): State
  {
    match Admit(config, request)
    case Err(_) => Close(s, id)
    case Ok((server, auth)) =>
      if reply.Refused? || reply.token == "" then Close(s, id)
      else
        var e := ExchangeOf(request, auth, Grant(reply.token, reply.expiresIn, timing));
        if !verified then Close(s.(exchanges := s.exchanges + {e}), id)
        else
          var stored := Store(config, s, KeyFor(config, request, auth), e, auth.resource);
          HandOver(stored, id, request, server, reply.token, timing.second)
  }

  function Apply(config: Config, s: State, step: Step): State
    requires Enabled(s, step)
  {
    match step
    case Arrive(id, request) => s.(requests := s.requests[id := Arrived(request)])
    case Route(id, now) => RouteRequest(config, s, id, s.requests[id].request, now)
    case Exchanged(id, reply, verified, timing) =>
      FinishExchange(config, s, id, s.requests[id].request, reply, verified, timing)
  }

  // ---------------------------------------------------------------- hypotheses

  /** The hash does not collide, and no server that requests are admitted to has a NUL in its id. */
  ghost predicate Sound(config: Config) {
    && (forall a, b | config.sha256(a) == config.sha256(b) :: a == b)
    && forall request | Admit(config, request).Ok? :: '\0' !in request.serverId
  }

  /** Bearer tokens are header text and hold no NUL. */
  predicate CleanToken(request: Request) {
    '\0' !in request.principal.token
  }

  ghost predicate CleanStep(step: Step) {
    step.Arrive? ==> CleanToken(step.request)
  }

  // ---------------------------------------------------------------- the invariant

  /** The token was issued for this principal and this server, and accepted for the server's resource. */
  ghost predicate Earned(config: Config, s: State, request: Request, token: string, e: Exchange) {
    var admitted := Admit(config, request);
    && admitted.Ok?
    && admitted.value.1.scopes.Some?
    && e in s.exchanges && e.grant.token == token
    && e.source == request.principal.token && e.scopes == admitted.value.1.scopes.value
    && (token, admitted.value.1.resource) in s.accepted
  }

  /** How long the cache may keep a granted token, and until when. */
  function Kept(config: Config, g: Grant): real {
    TC.Ttl(config.maxTtl, ExpiresAt(g), g.timing.first)
  }

  function KeptUntil(config: Config, g: Grant): real {
    g.timing.second + Kept(config, g)
  }

  /** The request whose exchange filled this cache entry. */
  ghost predicate FilledBy(config: Config, s: State, key: string, request: Request, e: Exchange) {
    && key in s.entries && CleanToken(request)
    && Earned(config, s, request, s.entries[key].token, e)
    && key == KeyFor(config, request, Admit(config, request).value.1)
    && Kept(config, e.grant) > 0.0 && s.entries[key].expiresAt == KeptUntil(config, e.grant)
  }

  ghost predicate CacheEarned(config: Config, s: State) {
    forall key | key in s.entries :: exists request, e :: FilledBy(config, s, key, request, e)
  }

  /** The token can be handed over then: when it arrives, or while the cache keeps it. */
  ghost predicate Servable(config: Config, g: Grant, at: real) {
    at == g.timing.second || (Kept(config, g) > 0.0 && at < KeptUntil(config, g))
  }

  /** The hand-over was earned by this exchange, and the caller is only reached for an authorized tool. */
  ghost predicate HandoffEarned(config: Config, s: State, h: Handoff, e: Exchange) {
    && Earned(config, s, h.request, h.token, e) && Servable(config, e.grant, h.at)
    && NeedsDownstream(h.request.rpcMethod)
    && (h.request.rpcMethod == "tools/call" ==>
          Permitted(config.registry, h.request.principal.roles, h.request.serverId, h.request.tool))
  }

  ghost predicate HandoffsEarned(config: Config, s: State) {
    forall h | h in s.handed :: exists e :: HandoffEarned(config, s, h, e)
  }

  ghost predicate RequestsClean(s: State) {
    forall id | id in s.requests ::
      && CleanToken(s.requests[id].request)
      && (s.requests[id].Exchanging? ==> NeedsDownstream(s.requests[id].request.rpcMethod))
  }

  ghost predicate Inv(config: Config, s: State) {
    CacheEarned(config, s) && HandoffsEarned(config, s) && RequestsClean(s)
  }

  /** Two requests with one cache key have the same principal token and server, whatever their scopes. */
  lemma KeyIdentifies(config: Config, p: Request, q: Request)
    requires Sound(config) && CleanToken(p) && CleanToken(q)
    requires Admit(config, p).Ok? && Admit(config, q).Ok?
    requires KeyFor(config, p, Admit(config, p).value.1) == KeyFor(config, q, Admit(config, q).value.1)
    ensures p.principal.token == q.principal.token && p.serverId == q.serverId
  {
    TC.MaterialIdentifies(p.principal.token, p.serverId, Admit(config, p).value.1.scopes.value,
                          q.principal.token, q.serverId, Admit(config, q).value.1.scopes.value);
  }

  /** Exchanges and acceptances are only ever added. */
  ghost predicate Grows(s: State, u: State) {
    s.exchanges <= u.exchanges && s.accepted <= u.accepted
  }

  /** What is earned stays earned while the records only grow. */
  lemma EarnedGrows(config: Config, s: State, u: State)
    requires Grows(s, u)
    ensures forall request, token, e | Earned(config, s, request, token, e) :: Earned(config, u, request, token, e)
  {}

  lemma HandoffsSurvive(config: Config, s: State, u: State)
    requires HandoffsEarned(config, s) && Grows(s, u) && u.handed == s.handed
    ensures HandoffsEarned(config, u)
  {
    EarnedGrows(config, s, u);
    forall h | h in u.handed
      ensures exists e :: HandoffEarned(config, u, h, e)
    {
      var e :| HandoffEarned(config, s, h, e);
      assert HandoffEarned(config, u, h, e);
    }
  }

  lemma CacheSurvives(config: Config, s: State, u: State)
    requires CacheEarned(config, s) && Grows(s, u)
    requires forall key | key in u.entries :: key in s.entries && u.entries[key] == s.entries[key]
    ensures CacheEarned(config, u)
  {
    EarnedGrows(config, s, u);
    forall key | key in u.entries
      ensures exists request, e :: FilledBy(config, u, key, request, e)
    {
      var request, e :| FilledBy(config, s, key, request, e);
      assert FilledBy(config, u, key, request, e);
    }
  }

  lemma HitIsFilled(config: Config, s: State, key: string, token: string, now: real)
    returns (filler: Request, e: Exchange)
    requires CacheEarned(config, s) && TC.CacheGet(s.entries, key, now).1 == Some(token)
    ensures FilledBy(config, s, key, filler, e) && e.grant.token == token && Servable(config, e.grant, now)
  {
    filler, e :| FilledBy(config, s, key, filler, e);
  }

  /** A cache hit was earned by an earlier request of the same principal for the same server. */
  lemma HitIsEarned(config: Config, s: State, request: Request, token: string, now: real) returns (e: Exchange)
    requires Sound(config) && CacheEarned(config, s) && CleanToken(request) && Admit(config, request).Ok?
    requires TC.CacheGet(s.entries, KeyFor(config, request, Admit(config, request).value.1), now).1 == Some(token)
    ensures Earned(config, s, request, token, e) && Servable(config, e.grant, now)
  {
    var filler;
    filler, e := HitIsFilled(config, s, KeyFor(config, request, Admit(config, request).value.1), token, now);
    KeyIdentifies(config, request, filler);
  }

  /** Dispatch re-checks the policy, so a token is handed over for a call only if it is permitted. */
  lemma HandedIsPermitted(config: Config, s: State, id: nat, request: Request, token: string, at: real)
    requires Admit(config, request).Ok? && NeedsDownstream(request.rpcMethod)
    ensures var u := HandOver(s, id, request, Admit(config, request).value.0, token, at);
            || u.handed == s.handed
            || (&& u.handed == s.handed + [Handoff(request, token, at)]
                && (request.rpcMethod == "tools/call" ==>
                      Permitted(config.registry, request.principal.roles, request.serverId, request.tool)))
  {}

  /** Handing over an earned token keeps the invariant. */
  lemma HandOverKeeps(config: Config, s: State, id: nat, request: Request, token: string, at: real, e: Exchange)
    requires Inv(config, s) && Admit(config, request).Ok? && Earned(config, s, request, token, e)
    requires NeedsDownstream(request.rpcMethod) && Servable(config, e.grant, at)
    ensures Inv(config, HandOver(s, id, request, Admit(config, request).value.0, token, at))
  {
    var u := HandOver(s, id, request, Admit(config, request).value.0, token, at);
    HandedIsPermitted(config, s, id, request, token, at);
    CacheSurvives(config, s, u);
    EarnedGrows(config, s, u);
    forall h | h in u.handed
      ensures exists e :: HandoffEarned(config, u, h, e)
    {
      if h in s.handed {
        var was :| HandoffEarned(config, s, h, was);
        assert HandoffEarned(config, u, h, was);
      } else {
        assert HandoffEarned(config, u, h, e);
      }
    }
  }

  lemma CloseKeeps(config: Config, s: State, u: State, id: nat)
    requires Inv(config, s) && Grows(s, u)
    requires forall key | key in u.entries :: key in s.entries && u.entries[key] == s.entries[key]
    requires u.handed == s.handed && u.requests == s.requests - {id}
    ensures Inv(config, u)
  {
    CacheSurvives(config, s, u);
    HandoffsSurvive(config, s, u);
  }

  lemma ReadingKeeps(config: Config, s: State, key: string, now: real)
    requires Inv(config, s)
    ensures Inv(config, s.(entries := TC.CacheGet(s.entries, key, now).0))
  {
    var read := s.(entries := TC.CacheGet(s.entries, key, now).0);
    CacheSurvives(config, s, read);
    HandoffsSurvive(config, s, read);
  }

  lemma WaitingKeeps(config: Config, s: State, id: nat, request: Request)
    requires Inv(config, s) && CleanToken(request) && NeedsDownstream(request.rpcMethod)
    ensures Inv(config, s.(requests := s.requests[id := Exchanging(request)]))
  {
    var u := s.(requests := s.requests[id := Exchanging(request)]);
    CacheSurvives(config, s, u);
    HandoffsSurvive(config, s, u);
  }

  lemma RouteKeeps(config: Config, s: State, id: nat, now: real)
    requires Sound(config) && Inv(config, s) && id in s.requests && s.requests[id].Arrived?
    ensures Inv(config, RouteRequest(config, s, id, s.requests[id].request, now))
  {
    var request := s.requests[id].request;
    if !NeedsDownstream(request.rpcMethod) || Admit(config, request).Err? {
      CloseKeeps(config, s, Close(s, id), id);
    } else {
      var key := KeyFor(config, request, Admit(config, request).value.1);
      var (entries, cached) := TC.CacheGet(s.entries, key, now);
      var read := s.(entries := entries);
      ReadingKeeps(config, s, key, now);
      if cached.Some? && cached.value != "" {
        var e := HitIsEarned(config, s, request, cached.value, now);
        HandOverKeeps(config, read, id, request, cached.value, now, e);
      } else {
        WaitingKeeps(config, read, id, request);
      }
    }
  }

  lemma StoringKeeps(config: Config, s: State, request: Request, e: Exchange)
    requires Inv(config, s) && CleanToken(request) && Admit(config, request).Ok?
    requires e.source == request.principal.token && Some(e.scopes) == Admit(config, request).value.1.scopes
    ensures var auth := Admit(config, request).value.1;
            var u := Store(config, s, KeyFor(config, request, auth), e, auth.resource);
            Inv(config, u) && Earned(config, u, request, e.grant.token, e)
  {
    var auth := Admit(config, request).value.1;
    var key := KeyFor(config, request, auth);
    var u := Store(config, s, key, e, auth.resource);
    EarnedGrows(config, s, u);
    HandoffsSurvive(config, s, u);
    forall k | k in u.entries
      ensures exists filler, f :: FilledBy(config, u, k, filler, f)
    {
      if k == key && Kept(config, e.grant) > 0.0 {
        assert FilledBy(config, u, k, request, e);
      } else {
        var filler, f :| FilledBy(config, s, k, filler, f);
        assert FilledBy(config, u, k, filler, f);
      }
    }
  }

  lemma ExchangeKeeps(config: Config, s: State, id: nat, reply: Reply, verified: bool, timing: Timing)
    requires Sound(config) && Inv(config, s) && id in s.requests && s.requests[id].Exchanging?
    ensures Inv(config, FinishExchange(config, s, id, s.requests[id].request, reply, verified, timing))
  {
    var request := s.requests[id].request;
    if Admit(config, request).Ok? && reply.Issued? && reply.token != "" && verified {
      var auth := Admit(config, request).value.1;
      var e := ExchangeOf(request, auth, Grant(reply.token, reply.expiresIn, timing));
      StoringKeeps(config, s, request, e);
      var stored := Store(config, s, KeyFor(config, request, auth), e, auth.resource);
      HandOverKeeps(config, stored, id, request, reply.token, timing.second, e);
    } else {
      CloseKeeps(config, s, FinishExchange(config, s, id, request, reply, verified, timing), id);
    }
  }

  lemma StepKeepsInvariant(config: Config, s: State, step: Step)
    requires Sound(config) && Inv(config, s) && Enabled(s, step) && CleanStep(step)
    ensures Inv(config, Apply(config, s, step))
  {
    match step
    case Arrive(id, request) =>
      var u := Apply(config, s, step);
      CacheSurvives(config, s, u);
      HandoffsSurvive(config, s, u);
    case Route(id, now) => RouteKeeps(config, s, id, now);
    case Exchanged(id, reply, verified, timing) => ExchangeKeeps(config, s, id, reply, verified, timing);
  }

  // ---------------------------------------------------------------- whole runs

  const INITIAL := State(map[], {}, {}, [], map[])

  predicate ValidRun(config: Config, s: State, steps: seq<Step>)
    decreases |steps|
  {
    steps == [] || (Enabled(s, steps[0]) && ValidRun(config, Apply(config, s, steps[0]), steps[1..]))
  }

  function After(config: Config, s: State, steps: seq<Step>): State
    requires ValidRun(config, s, steps)
    decreases |steps|
  {
    if steps == [] then s else After(config, Apply(config, s, steps[0]), steps[1..])
  }

  lemma {:induction false} RunKeepsInvariant(config: Config, s: State, steps: seq<Step>)
    requires Sound(config) && Inv(config, s) && ValidRun(config, s, steps)
    requires forall step | step in steps :: CleanStep(step)
    ensures Inv(config, After(config, s, steps))
    decreases |steps|
  {
    if steps != [] {
      StepKeepsInvariant(config, s, steps[0]);
      RunKeepsInvariant(config, Apply(config, s, steps[0]), steps[1..]);
    }
  }

  /**
   In every interleaving, each token given to the lister or the caller came from exchanging that
   request's own bearer token with the server's scopes and was accepted for the server's resource,
   whether it was fresh or cached; and the caller is reached only for a permitted tool.
  */
  lemma EveryHandoffIsEarned(config: Config, steps: seq<Step>, h: Handoff) returns (e: Exchange)
    requires Sound(config) && ValidRun(config, INITIAL, steps)
    requires forall step | step in steps :: CleanStep(step)
    requires h in After(config, INITIAL, steps).handed
    ensures HandoffEarned(config, After(config, INITIAL, steps), h, e)
  {
    RunKeepsInvariant(config, INITIAL, steps);
    e :| HandoffEarned(config, After(config, INITIAL, steps), h, e);
  }

  // ---------------------------------------------------------------- expiry

  /** When the issuer takes the token to expire. */
  function Expiry(g: Grant): real {
    g.timing.issuedAt + Lifetime(g.expiresIn) as real
  }

  /** What the answer took to be dated and the put took between its clock reads. */
  function Delay(t: Timing): real {
    (t.read - t.issuedAt) + (t.second - t.first)
  }

  /**
   The token arrives before it expires; and if it is cached at all, the delays together stay within
   the margin or the maximal lifetime ends before it expires.
  */
  predicate Timely(config: Config, g: Grant) {
    && g.timing.second < Expiry(g)
    && (Kept(config, g) > 0.0 ==>
          Delay(g.timing) <= TC.MARGIN || g.timing.second + config.maxTtl <= Expiry(g))
  }

  /** A granted token can be handed over only before the issuer's expiry iff it was timely. */
  lemma ServedUnexpiredIffTimely(config: Config, g: Grant)
    ensures (forall at | Servable(config, g, at) :: at < Expiry(g)) <==> Timely(config, g)
  {
    assert Servable(config, g, g.timing.second);
    if Kept(config, g) > 0.0 && g.timing.second < Expiry(g) < KeptUntil(config, g) {
      assert Servable(config, g, Expiry(g));
    }
  }

  predicate TimelyStep(config: Config, step: Step) {
    step.Exchanged? && step.reply.Issued? ==>
      Timely(config, Grant(step.reply.token, step.reply.expiresIn, step.timing))
  }

  lemma {:induction false} ExchangesAreTimely(config: Config, s: State, steps: seq<Step>)
    requires ValidRun(config, s, steps) && forall step | step in steps :: TimelyStep(config, step)
    requires forall e | e in s.exchanges :: Timely(config, e.grant)
    ensures forall e | e in After(config, s, steps).exchanges :: Timely(config, e.grant)
    decreases |steps|
  {
    if steps != [] {
      assert TimelyStep(config, steps[0]);
      ExchangesAreTimely(config, Apply(config, s, steps[0]), steps[1..]);
    }
  }

  /**
   In every interleaving in which each exchange is timely, every token given to the lister or the
   caller, fresh or cached, has not expired by the issuer's clock at that moment.
  */
  lemma EveryHandedTokenIsUnexpired(config: Config, steps: seq<Step>, h: Handoff) returns (e: Exchange)
    requires Sound(config) && ValidRun(config, INITIAL, steps)
    requires forall step | step in steps :: CleanStep(step) && TimelyStep(config, step)
    requires h in After(config, INITIAL, steps).handed
    ensures HandoffEarned(config, After(config, INITIAL, steps), h, e) && h.at < Expiry(e.grant)
  {
    e := EveryHandoffIsEarned(config, steps, h);
    ExchangesAreTimely(config, INITIAL, steps);
    ServedUnexpiredIffTimely(config, e.grant);
  }
}
