/** Handing out access tokens, refreshing them at the authorization server when they run out. */
module TokenManager {
  import opened Wrappers
  import opened TokenStores

  /** The store behind the manager, whichever of the two it is. */
  datatype Store = InMemory(memory: Memory) | InPostgres(rows: Rows) {
    ghost predicate Valid() {
      InPostgres? ==> SessionsUnique(rows) && forall s | s in rows :: rows[s].tokens.subject == s
    }
  }

  function Resolve(store: Store, session: string): Option<StoredTokens>
    requires store.Valid()
  {
    match store
    case InMemory(m) => MemGet(m, session)
    case InPostgres(p) => PgGet(p, session)
  }

  /** None stands for the store raising; it is then unchanged. */
  function Save(store: Store, tokens: StoredTokens, session: Option<string>): (r: Option<Store>)
    ensures store.Valid() && r.Some? ==> r.value.Valid()
  {
    match store
    case InMemory(m) => Some(InMemory(MemUpsert(m, tokens, session)))
    case InPostgres(p) =>
      match PgUpsert(p, tokens, session)
      case Ok(q) => Some(InPostgres(q))
      case Err(_) => None
  }

  function Rebind(store: Store, subject: string, session: string): (r: Option<Store>)
    ensures store.Valid() && r.Some? ==> r.value.Valid()
  {
    match store
    case InMemory(m) => Some(InMemory(MemBind(m, subject, session)))
    case InPostgres(p) =>
      match PgBind(p, subject, session)
      case Ok(q) => Some(InPostgres(q))
      case Err(_) => None
  }

  function Forget(store: Store, session: string): (r: Store)
    ensures store.Valid() ==> r.Valid()
  {
    match store
    case InMemory(m) => InMemory(MemDelete(m, session))
    case InPostgres(p) => InPostgres(PgDelete(p, session))
  }

  // ---------------------------------------------------------------- refreshing

  /** What the token endpoint answers; `refreshed` is what `tokens_from_response` makes of the body. */
  datatype Reply = TransportError | Http(status: int, error: string, refreshed: Option<StoredTokens>)

  datatype Outcome = Token(access: string) | NoToken | ReauthRequired | StoreFailed

  const REAUTH_ERROR_CODES := {"invalid_grant", "invalid_token"}

  const EARLY_SECONDS := 30.0

  predicate Usable(tokens: StoredTokens, force: bool, now: real) {
    !force && tokens.expiresAt > now + EARLY_SECONDS
  }

  predicate CanRefresh(tokens: StoredTokens, tokenUrl: string) {
    tokens.refresh.Some? && tokens.refresh.value != "" && tokenUrl != ""
  }

  function RefreshOutcome(store: Store, session: string, reply: Reply): (Store, Outcome) {
    match reply
    case TransportError => (store, NoToken)
    case Http(status, error, refreshed) =>
      if status >= 400 then
        if status < 500 && error in REAUTH_ERROR_CODES then (Forget(store, session), ReauthRequired)
        else (store, NoToken)
      else if status >= 300 || refreshed.None? then (store, NoToken)
      else
        match Save(store, refreshed.value, Some(session))
        case None => (store, StoreFailed)
        case Some(saved) => (saved, Token(refreshed.value.access))
  }

  /** `get_access_token`: the store afterwards and the result. */
  function AccessToken(store: Store, session: string, force: bool, now: real, tokenUrl: string, reply: Reply)
    : (Store, Outcome)
    requires store.Valid()
  {
    match Resolve(store, session)
    case None => (store, NoToken)
    case Some(tokens) =>
      if Usable(tokens, force, now) then (store, Token(tokens.access))
      else if !CanRefresh(tokens, tokenUrl) then (store, NoToken)
      else RefreshOutcome(store, session, reply)
  }

  /** The request reaches the token endpoint. */
  predicate Refreshes(store: Store, session: string, force: bool, now: real, tokenUrl: string)
    requires store.Valid()
  {
    var tokens := Resolve(store, session);
    tokens.Some? && !Usable(tokens.value, force, now) && CanRefresh(tokens.value, tokenUrl)
  }

  /** RFC 6749 section 5.2: the grant itself was refused. */
  predicate Rejects(reply: Reply) {
    reply.Http? && 400 <= reply.status < 500 && reply.error in REAUTH_ERROR_CODES
  }

  /** RFC 6749 section 6: the refresh was granted. */
  predicate Grants(reply: Reply) {
    reply.Http? && reply.status < 300 && reply.refreshed.Some?
  }

  /**
   The store changes only when a refresh is granted, and is then what saving the granted tokens
   makes of it, or rejected, and then no longer knows the session; a re-login is asked for exactly
   when a refresh is rejected, and a stored token is handed out only while it is still usable.
  */
  lemma StoreChangesOnlyOnRefresh(store: Store, session: string, force: bool, now: real, tokenUrl: string, reply: Reply)
    requires store.Valid()
    ensures var (after, outcome) := AccessToken(store, session, force, now, tokenUrl, reply);
            var refreshes := Refreshes(store, session, force, now, tokenUrl);
            && after.Valid()
            && (after != store ==> refreshes && (Rejects(reply) || Grants(reply)))
            && (outcome == ReauthRequired <==> refreshes && Rejects(reply))
            && (outcome == ReauthRequired ==> Resolve(after, session).None?)
            && (refreshes && Grants(reply) ==>
                  var saved := Save(store, reply.refreshed.value, Some(session));
                  if saved.Some? then after == saved.value && outcome == Token(reply.refreshed.value.access)
                  else after == store && outcome == StoreFailed)
            && (outcome.Token? && after == store && !(refreshes && Grants(reply)) ==>
                  var tokens := Resolve(store, session);
                  tokens.Some? && !force && now + EARLY_SECONDS < tokens.value.expiresAt
                  && outcome.access == tokens.value.access)
  {}

  /** A refresh that was saved: the session resolves to the new tokens, and the new access token is handed out. */
  lemma SavedRefreshResolves(store: Store, tokens: StoredTokens, session: string)
    requires store.Valid() && session != "" && tokens.subject != "" && Save(store, tokens, Some(session)).Some?
    ensures Resolve(Save(store, tokens, Some(session)).value, session) == Some(tokens)
  {
    if store.InPostgres? {
      PgUpsertReadsBack(store.rows, tokens, session, session);
    }
  }

  /**
   What `get_access_token` does in every case. A session without tokens gets none. Tokens with more
   than thirty seconds left are handed out unless a refresh is forced. Without a refresh token or an
   endpoint there is none. Else the endpoint decides: a rejected grant forgets the session and asks
   for a new login, new tokens are stored and handed out, and anything else gives none.
  */
  lemma AccessTokenDoes(store: Store, session: string, force: bool, now: real, tokenUrl: string, reply: Reply)
    requires store.Valid()
    ensures var (after, outcome) := AccessToken(store, session, force, now, tokenUrl, reply);
            match Resolve(store, session)
            case None => after == store && outcome == NoToken
            case Some(t) =>
              if !force && t.expiresAt > now + 30.0 then after == store && outcome == Token(t.access)
              else if t.refresh == None || t.refresh == Some("") || tokenUrl == "" then
                after == store && outcome == NoToken
              else
                match reply
                case TransportError => after == store && outcome == NoToken
                case Http(status, error, refreshed) =>
                  if 400 <= status < 500 && (error == "invalid_grant" || error == "invalid_token") then
                    outcome == ReauthRequired && after.Valid() && Resolve(after, session).None?
                  else if status >= 300 || refreshed.None? then after == store && outcome == NoToken
                  else if store.InPostgres? && Taken(store.rows, refreshed.value.subject, Some(session)) then
                    after == store && outcome == StoreFailed
                  else
                    && outcome == Token(refreshed.value.access) && after.Valid()
                    && (session != "" && refreshed.value.subject != "" ==> Resolve(after, session) == refreshed)
  {
    StoreChangesOnlyOnRefresh(store, session, force, now, tokenUrl, reply);
    if reply.Http? && reply.refreshed.Some? && session != "" && reply.refreshed.value.subject != ""
       && Save(store, reply.refreshed.value, Some(session)).Some? {
      SavedRefreshResolves(store, reply.refreshed.value, session);
    }
  }

  // ---------------------------------------------------------------- after a rejection

  datatype Call =
    | SaveResponse(tokens: Option<StoredTokens>, boundTo: Option<string>)
    | BindSession(subject: string, session: string)
    | GetAccessToken(session: string, force: bool, now: real, reply: Reply)

  function Apply(store: Store, tokenUrl: string, call: Call): (r: Store)
    requires store.Valid()
    ensures r.Valid()
  {
    match call
    case SaveResponse(tokens, boundTo) =>
      if tokens.None? then store
      else var saved := Save(store, tokens.value, boundTo); if saved.Some? then saved.value else store
    case BindSession(subject, session) =>
      var bound := Rebind(store, subject, session);
      if bound.Some? then bound.value else store
    case GetAccessToken(session, force, now, reply) =>
      StoreChangesOnlyOnRefresh(store, session, force, now, tokenUrl, reply);
      AccessToken(store, session, force, now, tokenUrl, reply).0
  }

  /** The call saves no new tokens for this subject, and this session stays with this subject. */
  ghost predicate LeavesAlone(store: Store, tokenUrl: string, call: Call, subject: string, session: string)
    requires store.Valid()
  {
    match call
    case SaveResponse(tokens, boundTo) =>
      tokens.Some? ==> tokens.value.subject != subject && boundTo != Some(session)
    case BindSession(who, what) => what == session ==> who == subject
    case GetAccessToken(asked, force, now, reply) =>
      Refreshes(store, asked, force, now, tokenUrl) && Grants(reply) ==> reply.refreshed.value.subject != subject
  }

  ghost predicate AllLeaveAlone(store: Store, tokenUrl: string, calls: seq<Call>, subject: string, session: string)
    requires store.Valid()
    decreases |calls|
  {
    calls == []
    || (&& LeavesAlone(store, tokenUrl, calls[0], subject, session)
        && AllLeaveAlone(Apply(store, tokenUrl, calls[0]), tokenUrl, calls[1..], subject, session))
  }

  /** The store has nothing for the subject, and nothing else answers to the session. */
  ghost predicate Dead(store: Store, subject: string, session: string) {
    match store
    case InMemory(m) =>
      subject !in m.bySubject
      && (session in m.sessionToSubject ==> m.sessionToSubject[session] in {subject, ""})
    case InPostgres(p) => subject !in p && forall s | s in p :: p[s].session != Some(session)
  }

  lemma DeadHasNoTokens(store: Store, subject: string, session: string)
    requires store.Valid() && Dead(store, subject, session)
    ensures Resolve(store, session).None?
  {}

  lemma RejectionIsDeadly(store: Store, session: string)
    requires store.Valid() && Resolve(store, session).Some?
    ensures store.InMemory? ==> Dead(Forget(store, session), store.memory.sessionToSubject[session], session)
    ensures store.InPostgres? ==> Dead(Forget(store, session), Resolve(store, session).value.subject, session)
  {}

  lemma CallKeepsDead(store: Store, tokenUrl: string, call: Call, subject: string, session: string)
    requires store.Valid() && Dead(store, subject, session) && LeavesAlone(store, tokenUrl, call, subject, session)
    ensures Dead(Apply(store, tokenUrl, call), subject, session)
  {}

  function Run(store: Store, tokenUrl: string, calls: seq<Call>): (r: Store)
    requires store.Valid()
    ensures r.Valid()
    decreases |calls|
  {
    if calls == [] then store else Run(Apply(store, tokenUrl, calls[0]), tokenUrl, calls[1..])
  }

  lemma {:induction false} RunKeepsDead(store: Store, tokenUrl: string, calls: seq<Call>, subject: string,
                                        session: string)
    requires store.Valid() && Dead(store, subject, session)
    requires AllLeaveAlone(store, tokenUrl, calls, subject, session)
    ensures Dead(Run(store, tokenUrl, calls), subject, session)
    decreases |calls|
  {
    if calls != [] {
      CallKeepsDead(store, tokenUrl, calls[0], subject, session);
      RunKeepsDead(Apply(store, tokenUrl, calls[0]), tokenUrl, calls[1..], subject, session);
    }
  }

  /** `access_token_for_gateway_session`: look up, else bind the login's subject and look up once more. */
  function TokenForSession(store: Store, session: string, subject: Option<string>, force: bool, now: real,
                           tokenUrl: string, first: Reply, second: Reply): (Store, Outcome)
    requires store.Valid()
  {
    var (after, outcome) := AccessToken(store, session, force, now, tokenUrl, first);
    StoreChangesOnlyOnRefresh(store, session, force, now, tokenUrl, first);
    if outcome == ReauthRequired || outcome == StoreFailed then (after, outcome)
    else if outcome.Token? && outcome.access != "" then (after, outcome)
    else if subject.None? || subject.value == "" then (after, NoToken)
    else
      match Rebind(after, subject.value, session)
      case None => (after, StoreFailed)
      case Some(bound) => AccessToken(bound, session, force, now, tokenUrl, second)
  }

  /** The first try ends the matter unless it found no token; then the subject is bound, if there is one. */
  lemma TokenForSessionDoes(store: Store, session: string, subject: Option<string>, force: bool, now: real,
                            tokenUrl: string, first: Reply, second: Reply)
    requires store.Valid()
    ensures var (after, outcome) := AccessToken(store, session, force, now, tokenUrl, first);
            var all := TokenForSession(store, session, subject, force, now, tokenUrl, first, second);
            if outcome != NoToken && outcome != Token("") then all == (after, outcome)
            else if subject == None || subject == Some("") then all == (after, NoToken)
            else
              && after.Valid()
              && match Rebind(after, subject.value, session)
                 case None => all == (after, StoreFailed)
                 case Some(bound) =>
                   bound.Valid() && all == AccessToken(bound, session, force, now, tokenUrl, second)
  {
    StoreChangesOnlyOnRefresh(store, session, force, now, tokenUrl, first);
  }

  /** The subject a store resolves a session to. */
  ghost function SubjectOf(store: Store, session: string): string
    requires store.Valid() && Resolve(store, session).Some?
  {
    match store
    case InMemory(m) => m.sessionToSubject[session]
    case InPostgres(p) => Resolve(store, session).value.subject
  }

  /**
   Once a refresh has been rejected, whatever calls follow that save nothing for the same subject,
   every further attempt for the session, with or without binding it to that subject again, ends
   without a token and leaves the store as it found it, or merely bound again.
  */
  lemma RejectedSessionStaysOut(store: Store, session: string, force: bool, now: real, tokenUrl: string, reply: Reply,
                                calls: seq<Call>, attempt: Reply, retry: Reply, again: bool, later: real)
    requires store.Valid() && AccessToken(store, session, force, now, tokenUrl, reply).1 == ReauthRequired
    requires var rejected := AccessToken(store, session, force, now, tokenUrl, reply).0;
             rejected.Valid() && AllLeaveAlone(rejected, tokenUrl, calls, SubjectOf(store, session), session)
    ensures var subject := SubjectOf(store, session);
            var rejected := AccessToken(store, session, force, now, tokenUrl, reply).0;
            && rejected.Valid()
            && var reached := Run(rejected, tokenUrl, calls);
            && Resolve(reached, session).None?
            && var (final, outcome) :=
                 TokenForSession(reached, session, Some(subject), again, later, tokenUrl, attempt, retry);
            outcome == NoToken && Dead(final, subject, session)
  {
    var subject := SubjectOf(store, session);
    StoreChangesOnlyOnRefresh(store, session, force, now, tokenUrl, reply);
    RejectionIsDeadly(store, session);
    var rejected := AccessToken(store, session, force, now, tokenUrl, reply).0;
    assert rejected == Forget(store, session);
    RunKeepsDead(rejected, tokenUrl, calls, subject, session);
    var s := Run(rejected, tokenUrl, calls);
    DeadHasNoTokens(s, subject, session);
    BindKeepsDead(s, subject, session);
  }

  lemma BindKeepsDead(store: Store, subject: string, session: string)
    requires store.Valid() && Dead(store, subject, session)
    ensures Rebind(store, subject, session).Some?
    ensures var bound := Rebind(store, subject, session).value;
            bound.Valid() && Dead(bound, subject, session) && Resolve(bound, session).None?
  {}

  /** Saving tokens for the subject and the session brings the session back. */
  lemma SavingRevives(store: Store, tokens: StoredTokens, session: string)
    requires store.Valid() && Dead(store, tokens.subject, session) && tokens.subject != "" && session != ""
    ensures var saved := Save(store, tokens, Some(session));
            saved.Some? && Resolve(saved.value, session) == Some(tokens)
  {
    if store.InPostgres? {
      PgUpsertReadsBack(store.rows, tokens, session, session);
    }
  }

  // ---------------------------------------------------------------- the manager

  class KeycloakTokenManager {
    var store: Store
    const tokenUrl: string

    constructor (store: Store, tokenUrl: string)
      ensures this.store == store && this.tokenUrl == tokenUrl
    {
      this.store, this.tokenUrl := store, tokenUrl;
    }

    method SaveResponse(tokens: Option<StoredTokens>, session: Option<string>) returns (saved: Option<StoredTokens>)
      requires store.Valid()
      modifies this
      ensures store == Apply(old(store), tokenUrl, Call.SaveResponse(tokens, session)) && store.Valid()
      ensures saved.Some? <==> tokens.Some? && Save(old(store), tokens.value, session).Some?
      ensures saved.Some? ==> saved == tokens
    {
      saved := None;
      if tokens.Some? {
        var after := Save(store, tokens.value, session);
        if after.Some? {
          store := after.value;
          saved := tokens;
        }
      }
    }

    method BindSession(subject: string, session: string)
      requires store.Valid()
      modifies this
      ensures store == Apply(old(store), tokenUrl, Call.BindSession(subject, session)) && store.Valid()
    {
      var bound := Rebind(store, subject, session);
      if bound.Some? {
        store := bound.value;
      }
    }

    method GetAccessToken(session: string, force: bool, now: real, reply: Reply) returns (outcome: Outcome)
      requires store.Valid()
      modifies this
      ensures (store, outcome) == AccessToken(old(store), session, force, now, tokenUrl, reply)
      ensures store.Valid()
    {
      StoreChangesOnlyOnRefresh(store, session, force, now, tokenUrl, reply);
      var tokens := Resolve(store, session);
      if tokens.None? {
        return NoToken;
      }
      if !force && tokens.value.expiresAt > now + EARLY_SECONDS {
        return Token(tokens.value.access);
      }
      if tokens.value.refresh.None? || tokens.value.refresh.value == "" || tokenUrl == "" {
        return NoToken;
      }
      if reply.TransportError? {
        return NoToken;
      }
      if reply.status >= 400 {
        if 400 <= reply.status < 500 && reply.error in REAUTH_ERROR_CODES {
          store := Forget(store, session);
          return ReauthRequired;
        }
        return NoToken;
      }
      if reply.status >= 300 || reply.refreshed.None? {
        return NoToken;
      }
      var saved := Save(store, reply.refreshed.value, Some(session));
      if saved.None? {
        return StoreFailed;
      }
      store := saved.value;
      outcome := Token(reply.refreshed.value.access);
    }
  }
}
