/**
 When the gateway gives a token to the lister or the caller, and which one: step by step, and for
 every request that is let through.
*/
module Handoffs {
  import opened Wrappers
  import opened Registry
  import opened RegistryMeaning
  import opened GatewayPipeline
  import TC = TokenCache

  /** The server's policy allows the tool, and the caller has every role that it requires. */
  ghost predicate Allows(server: Server, roles: set<string>, tool: string) {
    server.authorization.Authorization? && tool in server.authorization.allowedTools && RolesSuffice(server, roles)
  }

  predicate IsList(request: Request) {
    request.rpcMethod == "tools/list"
  }

  predicate IsCall(request: Request) {
    request.rpcMethod == "tools/call"
  }

  /** The request lists or calls tools of a server that is registered and configured for token exchange, and may. */
  ghost predicate LetThrough(config: Config, request: Request, server: Server) {
    && (IsList(request) || IsCall(request))
    && server.enabled && Holds(config.registry, request.serverId, Entry(server))
    && (IsCall(request) ==> Allows(server, request.principal.roles, request.tool))
    && server.authentication.mode == "keycloak_token_exchange"
    && server.authentication.resource != ""
    && server.authentication.scopes.Some? && server.authentication.scopes.value != []
  }

  lemma AllowsIsAuthorized(server: Server, roles: set<string>, tool: string)
    ensures AuthorizeTool(roles, server, tool).Ok? <==> Allows(server, roles, tool)
  {}

  lemma LetThroughIsAdmitted(config: Config, request: Request, server: Server)
    ensures LetThrough(config, request, server) <==>
            NeedsDownstream(request.rpcMethod) && Admit(config, request) == Ok((server, server.authentication))
  {
    LookupDoes(config.registry, request.serverId);
    AllowsIsAuthorized(server, request.principal.roles, request.tool);
  }

  lemma AdmittedIsLetThrough(config: Config, request: Request)
    requires NeedsDownstream(request.rpcMethod) && Admit(config, request).Ok?
    ensures var server := Admit(config, request).value.0;
            LetThrough(config, request, server) && Admit(config, request).value.1 == server.authentication
  {
    LetThroughIsAdmitted(config, request, Admit(config, request).value.0);
  }

  /**
   Why a request that lists or calls tools is turned away, the first reason first: its server, the
   policy on the called tool, the mode of authentication, and what the exchange needs to know.
  */
  lemma RefusalDoes(config: Config, request: Request)
    requires NeedsDownstream(request.rpcMethod)
    ensures var answer := Admit(config, request);
            if Holds(config.registry, request.serverId, NotAMapping) then answer == Err(Crash)
            else if !exists server: Server :: server.enabled && Holds(config.registry, request.serverId, Entry(server))
            then answer == Err(ServerNotFound)
            else
              var server: Server :| server.enabled && Holds(config.registry, request.serverId, Entry(server));
              var auth := server.authentication;
              if IsCall(request) && !Allows(server, request.principal.roles, request.tool)
              then answer == Err(match server.authorization
                                 case NullAuthorization => Crash
                                 case NoAuthorization => ToolNotFound
                                 case Authorization(allowed, _) =>
                                   if request.tool in allowed then AccessDenied else ToolNotFound)
              else if auth.mode != "keycloak_token_exchange" then answer == Err(UnsupportedAuthMode)
              else if auth.resource == "" || auth.scopes.None? || auth.scopes.value == []
              then answer == Err(InvalidRegistry)
              else answer == Ok((server, auth))
  {
    LookupDoes(config.registry, request.serverId);
    var server := GetServer(config.registry, request.serverId);
    if server.Ok? {
      AllowsIsAuthorized(server.value, request.principal.roles, request.tool);
    }
  }

  ghost predicate SomeLetThrough(config: Config, request: Request) {
    exists server :: LetThrough(config, request, server)
  }

  /** The other requests stay where they are. */
  ghost predicate OthersStay(s: State, u: State, id: nat) {
    forall i | i != id :: (i in s.requests <==> i in u.requests) && (i in s.requests ==> u.requests[i] == s.requests[i])
  }

  // ---------------------------------------------------------------- steps

  /** The key under which the cache files a token for the request. */
  function KeyOf(config: Config, request: Request, server: Server): string
    requires server.authentication.scopes.Some?
  {
    TC.CacheKey(config.sha256, request.principal.token, request.serverId, server.authentication.scopes.value)
  }

  /** The token endpoint's answer is a token, and it was verified. */
  predicate Delivered(reply: Reply, verified: bool) {
    reply.Issued? && reply.token != "" && verified
  }

  /** The cache holds a token for this key that has not expired and is not empty. */
  predicate Cached(entries: TC.Entries, key: string, now: real) {
    key in entries && now < entries[key].expiresAt && entries[key].token != ""
  }

  /** What an exchange comes to: the token is handed over once if it was delivered, and else nothing is. */
  lemma ExchangeDoes(config: Config, s: State, id: nat, reply: Reply, verified: bool, timing: Timing)
    requires id in s.requests && s.requests[id].Exchanging? && SomeLetThrough(config, s.requests[id].request)
    ensures var u := Apply(config, s, Exchanged(id, reply, verified, timing));
            var handed := if Delivered(reply, verified)
                          then [Handoff(s.requests[id].request, reply.token, timing.second)] else [];
            u.handed == s.handed + handed && id !in u.requests && OthersStay(s, u, id)
  {
    var request := s.requests[id].request;
    var server :| LetThrough(config, request, server);
    LetThroughIsAdmitted(config, request, server);
    AllowsIsAuthorized(server, request.principal.roles, request.tool);
  }

  /** A request that is not let through comes to nothing. */
  lemma RefusedDoes(config: Config, s: State, step: Step)
    requires Enabled(s, step) && !step.Arrive? && !SomeLetThrough(config, s.requests[step.id].request)
    requires step.Exchanged? ==> NeedsDownstream(s.requests[step.id].request.rpcMethod)
    ensures var u := Apply(config, s, step);
            u.handed == s.handed && u.entries == s.entries && step.id !in u.requests && OthersStay(s, u, step.id)
  {
    var request := s.requests[step.id].request;
    if NeedsDownstream(request.rpcMethod) && Admit(config, request).Ok? {
      AdmittedIsLetThrough(config, request);
    }
  }

  /** A request that is let through gets the cached token if there is a good one, and else asks for an exchange. */
  lemma RouteDoes(config: Config, s: State, id: nat, now: real, server: Server)
    requires id in s.requests && s.requests[id].Arrived? && LetThrough(config, s.requests[id].request, server)
    ensures var u, request := Apply(config, s, Route(id, now)), s.requests[id].request;
            var key := KeyOf(config, request, server);
            && OthersStay(s, u, id)
            && if Cached(s.entries, key, now)
               then u.handed == s.handed + [Handoff(request, s.entries[key].token, now)] && id !in u.requests
               else u.handed == s.handed && id in u.requests && u.requests[id] == Exchanging(request)
  {
    var request := s.requests[id].request;
    LetThroughIsAdmitted(config, request, server);
    AllowsIsAuthorized(server, request.principal.roles, request.tool);
  }

  lemma ArriveDoes(config: Config, s: State, id: nat, request: Request)
    requires id !in s.requests
    ensures var u := Apply(config, s, Arrive(id, request));
            u.handed == s.handed && u.entries == s.entries && u.requests == s.requests[id := Arrived(request)]
  {}

  /** What the cache holds after an exchange: the delivered token until the deadline, if there is time left. */
  lemma ExchangeCaches(config: Config, s: State, id: nat, reply: Reply, verified: bool, timing: Timing, server: Server)
    requires id in s.requests && s.requests[id].Exchanging? && LetThrough(config, s.requests[id].request, server)
    ensures var u := Apply(config, s, Exchanged(id, reply, verified, timing));
            if !Delivered(reply, verified) then u.entries == s.entries
            else
              var lifetime := if reply.expiresIn == 0 then 300 else reply.expiresIn;
              var left := timing.read + lifetime as real - timing.first - 5.0;
              if left <= 0.0 || config.maxTtl <= 0.0 then u.entries == s.entries
              else
                var kept := if left <= config.maxTtl then left else config.maxTtl;
                u.entries == s.entries[KeyOf(config, s.requests[id].request, server)
                                       := TC.CacheEntry(reply.token, timing.second + kept)]
  {
    LetThroughIsAdmitted(config, s.requests[id].request, server);
  }

  // ---------------------------------------------------------------- runs

  /** What a step hands over. */
  function HandedBy(config: Config, s: State, step: Step): seq<Handoff>
    requires Enabled(s, step) && |s.handed| <= |Apply(config, s, step).handed|
  {
    Apply(config, s, step).handed[|s.handed|..]
  }

  lemma HandedGrows(config: Config, s: State, step: Step)
    requires Enabled(s, step)
    ensures s.handed <= Apply(config, s, step).handed
  {}

  /** What the steps of one request hand over in a run. */
  function HandedFor(config: Config, s: State, steps: seq<Step>, id: nat): seq<Handoff>
    requires ValidRun(config, s, steps)
    decreases |steps|
  {
    if steps == [] then []
    else
      HandedGrows(config, s, steps[0]);
      (if steps[0].id == id then HandedBy(config, s, steps[0]) else [])
      + HandedFor(config, Apply(config, s, steps[0]), steps[1..], id)
  }

  /** The run has an answer for the request that is no verified token. */
  ghost predicate Undelivered(steps: seq<Step>, id: nat) {
    exists step :: step in steps && step.Exchanged? && step.id == id && !Delivered(step.reply, step.verified)
  }

  ghost predicate NoArrival(steps: seq<Step>, id: nat) {
    forall step | step in steps && step.id == id :: !step.Arrive?
  }

  lemma {:induction false} AbsentIsIdle(config: Config, s: State, steps: seq<Step>, id: nat)
    requires ValidRun(config, s, steps) && NoArrival(steps, id) && id !in s.requests
    ensures HandedFor(config, s, steps, id) == [] && id !in After(config, s, steps).requests
    ensures !Undelivered(steps, id)
    decreases |steps|
  {
    if steps != [] {
      assert steps[0] in steps;
      OtherStepStays(config, s, steps[0], id);
      AbsentIsIdle(config, Apply(config, s, steps[0]), steps[1..], id);
      assert steps == [steps[0]] + steps[1..];
    }
  }

  lemma OtherStepStays(config: Config, s: State, step: Step, id: nat)
    requires Enabled(s, step) && (step.id != id || (id !in s.requests && !step.Arrive?))
    ensures step.id != id
    ensures var u := Apply(config, s, step);
            (id in u.requests <==> id in s.requests) && (id in s.requests ==> u.requests[id] == s.requests[id])
  {}

  /**
   In every interleaving, a request that is let through and has not been answered yet is served
   nothing; and one that has left was served exactly one token, its own, unless the token endpoint
   refused it or what it issued was empty or not verified, and then none.
  */
  lemma {:induction false} RequestIsServedOnce(config: Config, s: State, steps: seq<Step>, id: nat)
    requires ValidRun(config, s, steps) && NoArrival(steps, id)
    requires id in s.requests && SomeLetThrough(config, s.requests[id].request)
    ensures var u, handed := After(config, s, steps), HandedFor(config, s, steps, id);
            if id in u.requests then handed == [] && u.requests[id].request == s.requests[id].request
            else if Undelivered(steps, id) then handed == []
            else |handed| == 1 && handed[0].request == s.requests[id].request
    decreases |steps|
  {
    if steps != [] {
      var step, rest := steps[0], steps[1..];
      var u := Apply(config, s, step);
      assert steps == [step] + rest && step in steps;
      if step.id != id {
        OtherStepStays(config, s, step, id);
        RequestIsServedOnce(config, u, rest, id);
      } else {
        var request := s.requests[id].request;
        if step.Route? {
          var server :| LetThrough(config, request, server);
          RouteDoes(config, s, id, step.now, server);
          if id in u.requests {
            RequestIsServedOnce(config, u, rest, id);
          } else {
            AbsentIsIdle(config, u, rest, id);
          }
        } else {
          ExchangeDoes(config, s, id, step.reply, step.verified, step.timing);
          AbsentIsIdle(config, u, rest, id);
        }
      }
    }
  }
}
