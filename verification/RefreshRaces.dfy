/**
 Several token requests at once, as a state machine whose steps run from one `await` to the next:
 the lookup, the answer of the token endpoint, the write or delete that follows, and for a gateway
 session the bind of the login's subject with the second try.
*/
module RefreshRaces {
  import opened Wrappers
  import opened TokenStores
  import opened TokenManager

  /**
   A request for a session's token. With a subject it is `access_token_for_gateway_session`, which
   binds that subject and tries again when it gets no token; an empty subject counts as none.
  */
  datatype Call = Call(session: string, force: bool, subject: Option<string>)

  /** Where a call is suspended, with the tokens it looked up. */
  datatype Pc =
    | Refreshing(call: Call, sent: StoredTokens)                        // the token endpoint's answer
    | Discarding(call: Call, sent: StoredTokens)                        // delete_by_session
    | Saving(call: Call, sent: StoredTokens, refreshed: StoredTokens)   // upsert
    | Binding(call: Call, bindTo: string)                               // bind_session
    | Retrying(call: Call)                                              // the second lookup

  /** What a call has ended with. */
  datatype Ended = Ended(session: string, outcome: Outcome)

  datatype State = State(store: Store, calls: map<nat, Pc>, ended: seq<Ended>)

  datatype Step =
    | Look(id: nat, call: Call, now: real)
    | Answer(id: nat, reply: Reply)
    | Discard(id: nat)
    | Write(id: nat)
    | BindSubject(id: nat)
    | LookAgain(id: nat, now: real)
    | Login(tokens: StoredTokens, boundTo: Option<string>)
    | Rebinding(subject: string, session: string)

  predicate Enabled(s: State, step: Step) {
    match step
    case Look(id, _, _) => id !in s.calls
    case Answer(id, _) => id in s.calls && s.calls[id].Refreshing?
    case Discard(id) => id in s.calls && s.calls[id].Discarding?
    case Write(id) => id in s.calls && s.calls[id].Saving?
    case BindSubject(id) => id in s.calls && s.calls[id].Binding?
    case LookAgain(id, _) => id in s.calls && s.calls[id].Retrying?
    case Login(_, _) => true
    case Rebinding(_, _) => true
  }

  function Goto(s: State, id: nat, pc: Pc): State {
    s.(calls := s.calls[id := pc])
  }

  /** The call returns or raises. */
  function End(s: State, id: nat, session: string, outcome: Outcome): State {
    s.(calls := s.calls - {id}, ended := s.ended + [Ended(session, outcome)])
  }

  /** `get_access_token` has returned; without a token a gateway session goes on to bind and try again. */
  function Returned(s: State, id: nat, call: Call, outcome: Outcome): State {
    if call.subject.None? || (outcome.Token? && outcome.access != "") then End(s, id, call.session, outcome)
    else if call.subject.value == "" then End(s, id, call.session, NoToken)
    else Goto(s, id, Binding(call.(subject := None), call.subject.value))
  }

  function Looked(tokenUrl: string, s: State, id: nat, call: Call, now: real): State
    requires s.store.Valid()
  {
    var tokens := Resolve(s.store, call.session);
    if Refreshes(s.store, call.session, call.force, now, tokenUrl) then Goto(s, id, Refreshing(call, tokens.value))
    else if tokens.Some? && Usable(tokens.value, call.force, now) then Returned(s, id, call, Token(tokens.value.access))
    else Returned(s, id, call, NoToken)
  }

  function Answered(s: State, id: nat, call: Call, sent: StoredTokens, reply: Reply): State {
    if Rejects(reply) then Goto(s, id, Discarding(call, sent))
    else if Grants(reply) then Goto(s, id, Saving(call, sent, reply.refreshed.value))
    else Returned(s, id, call, NoToken)
  }

  function Written(s: State, id: nat, call: Call, refreshed: StoredTokens): State {
    match Save(s.store, refreshed, Some(call.session))
    case None => End(s, id, call.session, StoreFailed)
    case Some(saved) => Returned(s.(store := saved), id, call, Token(refreshed.access))
  }

  function Bound(s: State, id: nat, call: Call, bindTo: string): State {
    match Rebind(s.store, bindTo, call.session)
    case None => End(s, id, call.session, StoreFailed)
    case Some(bound) => Goto(s.(store := bound), id, Retrying(call))
  }

  function Apply(tokenUrl: string, s: State, step: Step): (r: State)
    requires s.store.Valid() && Enabled(s, step)
    ensures r.store.Valid()
  {
    match step
    case Look(id, call, now) => Looked(tokenUrl, s, id, call, now)
    case Answer(id, reply) => Answered(s, id, s.calls[id].call, s.calls[id].sent, reply)
    case Discard(id) =>
      var session := s.calls[id].call.session;
      End(s.(store := Forget(s.store, session)), id, session, ReauthRequired)
    case Write(id) => Written(s, id, s.calls[id].call, s.calls[id].refreshed)
    case BindSubject(id) => Bound(s, id, s.calls[id].call, s.calls[id].bindTo)
    case LookAgain(id, now) => Looked(tokenUrl, s, id, s.calls[id].call, now)
    case Login(tokens, boundTo) =>
      var saved := Save(s.store, tokens, boundTo);
      if saved.Some? then s.(store := saved.value) else s
    case Rebinding(subject, session) =>
      var bound := Rebind(s.store, subject, session);
      if bound.Some? then s.(store := bound.value) else s
  }

  predicate ValidRun(tokenUrl: string, s: State, steps: seq<Step>)
    requires s.store.Valid()
    decreases |steps|
  {
    steps == [] || (Enabled(s, steps[0]) && ValidRun(tokenUrl, Apply(tokenUrl, s, steps[0]), steps[1..]))
  }

  function After(tokenUrl: string, s: State, steps: seq<Step>): (r: State)
    requires s.store.Valid() && ValidRun(tokenUrl, s, steps)
    ensures r.store.Valid()
    decreases |steps|
  {
    if steps == [] then s else After(tokenUrl, Apply(tokenUrl, s, steps[0]), steps[1..])
  }

  lemma RunStep(tokenUrl: string, s: State, step: Step, rest: seq<Step>)
    requires s.store.Valid() && Enabled(s, step) && ValidRun(tokenUrl, Apply(tokenUrl, s, step), rest)
    ensures ValidRun(tokenUrl, s, [step] + rest)
    ensures After(tokenUrl, s, [step] + rest) == After(tokenUrl, Apply(tokenUrl, s, step), rest)
  {}

  lemma {:induction false} RunAppend(tokenUrl: string, s: State, xs: seq<Step>, ys: seq<Step>)
    requires s.store.Valid() && ValidRun(tokenUrl, s, xs) && ValidRun(tokenUrl, After(tokenUrl, s, xs), ys)
    ensures ValidRun(tokenUrl, s, xs + ys)
    ensures After(tokenUrl, s, xs + ys) == After(tokenUrl, After(tokenUrl, s, xs), ys)
    decreases |xs|
  {
    if xs == [] {
      assert xs + ys == ys;
    } else {
      RunAppend(tokenUrl, Apply(tokenUrl, s, xs[0]), xs[1..], ys);
      assert xs + ys == [xs[0]] + (xs[1..] + ys);
      RunStep(tokenUrl, s, xs[0], xs[1..] + ys);
    }
  }

  // ---------------------------------------------------------------- a call that nobody disturbs

  /** The steps of a try after its lookup, with nothing in between. */
  function Settle(tokenUrl: string, s: State, id: nat, reply: Reply): (r: State)
    requires s.store.Valid() && id in s.calls && s.calls[id].Refreshing?
    ensures r.store.Valid()
  {
    var answered := Apply(tokenUrl, s, Answer(id, reply));
    if id !in answered.calls || answered.calls[id].Binding? then answered
    else Apply(tokenUrl, answered, if answered.calls[id].Discarding? then Discard(id) else Write(id))
  }

  /** One try: the lookup and what follows it up to the call's end or its bind. */
  function Try(tokenUrl: string, s: State, id: nat, call: Call, now: real, reply: Reply): (r: State)
    requires s.store.Valid()
    ensures r.store.Valid()
  {
    var looked := Looked(tokenUrl, s, id, call, now);
    if id in looked.calls && looked.calls[id].Refreshing? then Settle(tokenUrl, looked, id, reply) else looked
  }

  /** The bind and the second try, if the first try has led there. */
  function Onward(tokenUrl: string, s: State, id: nat, now: real, reply: Reply): State
    requires s.store.Valid()
  {
    if id !in s.calls || !s.calls[id].Binding? then s
    else
      var bound := Apply(tokenUrl, s, BindSubject(id));
      if id !in bound.calls || !bound.calls[id].Retrying? then bound
      else Try(tokenUrl, bound, id, bound.calls[id].call, now, reply)
  }

  /** A whole call. */
  function Alone(tokenUrl: string, s: State, id: nat, call: Call, now: real, first: Reply, second: Reply): State
    requires s.store.Valid()
  {
    Onward(tokenUrl, Try(tokenUrl, s, id, call, now, first), id, now, second)
  }

  /** What an outcome of `get_access_token` leads to. */
  function Continued(s: State, id: nat, call: Call, outcome: Outcome): State {
    if outcome.Token? || outcome.NoToken? then Returned(s, id, call, outcome) else End(s, id, call.session, outcome)
  }

  lemma PassingThrough(s: State, id: nat, pc: Pc, next: Pc)
    ensures Goto(Goto(s, id, pc), id, next) == Goto(s, id, next)
    ensures Goto(s, id, pc).calls - {id} == s.calls - {id}
  {}

  lemma SettleRejected(tokenUrl: string, s: State, id: nat, call: Call, sent: StoredTokens, reply: Reply)
    requires s.store.Valid() && Rejects(reply)
    ensures Settle(tokenUrl, Goto(s, id, Refreshing(call, sent)), id, reply)
            == End(s.(store := Forget(s.store, call.session)), id, call.session, ReauthRequired)
  {
    PassingThrough(s, id, Refreshing(call, sent), Discarding(call, sent));
    PassingThrough(s, id, Discarding(call, sent), Discarding(call, sent));
  }

  lemma SettleGranted(tokenUrl: string, s: State, id: nat, call: Call, sent: StoredTokens, reply: Reply)
    requires s.store.Valid() && Grants(reply)
    ensures Settle(tokenUrl, Goto(s, id, Refreshing(call, sent)), id, reply)
            == Written(s, id, call, reply.refreshed.value)
  {
    var saving := Saving(call, sent, reply.refreshed.value);
    PassingThrough(s, id, Refreshing(call, sent), saving);
    PassingThrough(s, id, saving, saving);
    if call.subject.Some? {
      var saved := Save(s.store, reply.refreshed.value, Some(call.session));
      if saved.Some? {
        PassingThrough(s.(store := saved.value), id, saving, Binding(call.(subject := None), call.subject.value));
      }
    }
  }

  lemma SettleOther(tokenUrl: string, s: State, id: nat, call: Call, sent: StoredTokens, reply: Reply)
    requires s.store.Valid() && !Rejects(reply) && !Grants(reply)
    ensures Settle(tokenUrl, Goto(s, id, Refreshing(call, sent)), id, reply) == Returned(s, id, call, NoToken)
  {
    PassingThrough(s, id, Refreshing(call, sent), Refreshing(call, sent));
    if call.subject.Some? {
      PassingThrough(s, id, Refreshing(call, sent), Binding(call.(subject := None), call.subject.value));
    }
  }

  lemma SettleIsRefresh(tokenUrl: string, s: State, id: nat, call: Call, sent: StoredTokens, reply: Reply)
    requires s.store.Valid()
    ensures var (store, outcome) := RefreshOutcome(s.store, call.session, reply);
            Settle(tokenUrl, Goto(s, id, Refreshing(call, sent)), id, reply)
            == Continued(s.(store := store), id, call, outcome)
  {
    if Rejects(reply) {
      SettleRejected(tokenUrl, s, id, call, sent, reply);
    } else if Grants(reply) {
      SettleGranted(tokenUrl, s, id, call, sent, reply);
    } else {
      SettleOther(tokenUrl, s, id, call, sent, reply);
    }
  }

  /** Without interference one try is `get_access_token` as one step. */
  lemma UndisturbedTryIsAtomic(tokenUrl: string, s: State, id: nat, call: Call, now: real, reply: Reply)
    requires s.store.Valid()
    ensures var (store, outcome) := AccessToken(s.store, call.session, call.force, now, tokenUrl, reply);
            Try(tokenUrl, s, id, call, now, reply) == Continued(s.(store := store), id, call, outcome)
  {
    if Refreshes(s.store, call.session, call.force, now, tokenUrl) {
      SettleIsRefresh(tokenUrl, s, id, call, Resolve(s.store, call.session).value, reply);
    }
  }

  /** A try that is not followed by a bind ends the call. */
  lemma PlainTryEnds(tokenUrl: string, s: State, id: nat, call: Call, now: real, reply: Reply)
    requires s.store.Valid() && call.subject.None?
    ensures var (store, outcome) := AccessToken(s.store, call.session, call.force, now, tokenUrl, reply);
            Try(tokenUrl, s, id, call, now, reply)
            == State(store, s.calls - {id}, s.ended + [Ended(call.session, outcome)])
  {
    UndisturbedTryIsAtomic(tokenUrl, s, id, call, now, reply);
  }

  lemma OnwardIsRetry(tokenUrl: string, s: State, id: nat, call: Call, bindTo: string, now: real, reply: Reply)
    requires s.store.Valid() && id !in s.calls && call.subject.None?
    ensures var onward := Onward(tokenUrl, Goto(s, id, Binding(call, bindTo)), id, now, reply);
            match Rebind(s.store, bindTo, call.session)
            case None => onward == State(s.store, s.calls, s.ended + [Ended(call.session, StoreFailed)])
            case Some(bound) =>
              var (store, outcome) := AccessToken(bound, call.session, call.force, now, tokenUrl, reply);
              onward == State(store, s.calls, s.ended + [Ended(call.session, outcome)])
  {
    PassingThrough(s, id, Binding(call, bindTo), Retrying(call));
    assert s.calls - {id} == s.calls;
    match Rebind(s.store, bindTo, call.session)
    case None =>
    case Some(bound) =>
      PassingThrough(s.(store := bound), id, Binding(call, bindTo), Retrying(call));
      PassingThrough(s.(store := bound), id, Retrying(call), Retrying(call));
      PlainTryEnds(tokenUrl, Goto(s.(store := bound), id, Retrying(call)), id, call, now, reply);
  }

  /** Without interference the steps of a plain call add up to `get_access_token`. */
  lemma UndisturbedCallIsAtomic(tokenUrl: string, s: State, id: nat, call: Call, now: real, first: Reply, second: Reply)
    requires s.store.Valid() && id !in s.calls && call.subject.None?
    ensures var (store, outcome) := AccessToken(s.store, call.session, call.force, now, tokenUrl, first);
            Alone(tokenUrl, s, id, call, now, first, second)
            == State(store, s.calls, s.ended + [Ended(call.session, outcome)])
  {
    PlainTryEnds(tokenUrl, s, id, call, now, first);
    assert s.calls - {id} == s.calls;
  }

  /** Without interference the steps of a call with a subject add up to the bind and retry as one step. */
  lemma UndisturbedRetryIsAtomic(tokenUrl: string, s: State, id: nat, call: Call, now: real, first: Reply,
                                 second: Reply)
    requires s.store.Valid() && id !in s.calls && call.subject.Some?
    ensures var (store, outcome) :=
              TokenForSession(s.store, call.session, call.subject, call.force, now, tokenUrl, first, second);
            Alone(tokenUrl, s, id, call, now, first, second)
            == State(store, s.calls, s.ended + [Ended(call.session, outcome)])
  {
    var (store, outcome) := AccessToken(s.store, call.session, call.force, now, tokenUrl, first);
    StoreChangesOnlyOnRefresh(s.store, call.session, call.force, now, tokenUrl, first);
    UndisturbedTryIsAtomic(tokenUrl, s, id, call, now, first);
    assert s.calls - {id} == s.calls;
    if (outcome == NoToken || outcome == Token("")) && call.subject.value != "" {
      OnwardIsRetry(tokenUrl, s.(store := store), id, call.(subject := None), call.subject.value, now, second);
    }
  }

  // ---------------------------------------------------------------- what a subject's tokens are

  /** Sessions and tokens are filed under the subject they belong to. */
  ghost predicate Filed(store: Store, owner: string -> string) {
    match store
    case InMemory(m) => MemValid(m, owner)
    case InPostgres(p) => PgValid(p, owner) && SessionsUnique(p)
  }

  /** The call is for a session of its subject. */
  ghost predicate ProperCall(call: Call, owner: string -> string) {
    call.session != "" && (call.subject.Some? && call.subject.value != "" ==> call.subject.value == owner(call.session))
  }

  ghost predicate ProperStep(s: State, step: Step, owner: string -> string) {
    match step
    case Look(_, call, _) => ProperCall(call, owner)
    case Answer(id, reply) =>
      id in s.calls && Grants(reply) ==> reply.refreshed.value.subject == owner(s.calls[id].call.session)
    case Login(tokens, boundTo) => Proper(Upsert(tokens, boundTo), owner)
    case Rebinding(subject, session) => Proper(Bind(subject, session), owner)
    case _ => true
  }

  function Held(store: Store, subject: string): Option<StoredTokens> {
    match store
    case InMemory(m) => if subject in m.bySubject then Some(m.bySubject[subject]) else None
    case InPostgres(p) => if subject in p then Some(p[subject].tokens) else None
  }

  lemma ResolvedIsHeld(store: Store, owner: string -> string, session: string)
    requires store.Valid() && Filed(store, owner) && Resolve(store, session).Some?
    ensures Resolve(store, session) == Held(store, owner(session)) != None
    ensures Resolve(store, session).value.subject == owner(session) != ""
  {}

  /** The call has sent tokens to the token endpoint. */
  predicate Asking(pc: Pc) {
    pc.Refreshing? || pc.Discarding? || pc.Saving?
  }

  /** A call belongs to the owner of its session, and so do the tokens it has looked up or received. */
  ghost predicate PcFits(pc: Pc, owner: string -> string) {
    && ProperCall(pc.call, owner)
    && (Asking(pc) ==> pc.sent.subject == owner(pc.call.session) != "")
    && (pc.Saving? ==> pc.refreshed.subject == owner(pc.call.session))
    && (pc.Binding? ==> pc.bindTo == owner(pc.call.session) != "")
  }

  ghost predicate Fits(s: State, owner: string -> string) {
    && s.store.Valid() && Filed(s.store, owner)
    && forall id | id in s.calls :: PcFits(s.calls[id], owner)
  }

  lemma SavingFiles(store: Store, owner: string -> string, tokens: StoredTokens, session: Option<string>)
    requires store.Valid() && Filed(store, owner) && Proper(Upsert(tokens, session), owner)
    ensures var saved := Save(store, tokens, session);
            && saved.Some? && Filed(saved.value, owner) && Held(saved.value, tokens.subject) == Some(tokens)
            && forall u | u != tokens.subject :: Held(saved.value, u) == Held(store, u)
  {}

  lemma BindingFiles(store: Store, owner: string -> string, subject: string, session: string)
    requires store.Valid() && Filed(store, owner) && Proper(Bind(subject, session), owner)
    ensures var bound := Rebind(store, subject, session);
            bound.Some? && Filed(bound.value, owner) && forall u :: Held(bound.value, u) == Held(store, u)
  {}

  lemma ForgettingFiles(store: Store, owner: string -> string, session: string)
    requires store.Valid() && Filed(store, owner)
    ensures Filed(Forget(store, session), owner)
    ensures forall u | u != owner(session) :: Held(Forget(store, session), u) == Held(store, u)
    ensures Resolve(store, session).Some? ==> Held(Forget(store, session), owner(session)).None?
    ensures Resolve(store, session).None? ==>
              Held(Forget(store, session), owner(session)) == Held(store, owner(session))
  {}

  lemma ReturningFits(s: State, owner: string -> string, id: nat, call: Call, outcome: Outcome)
    requires Fits(s, owner) && ProperCall(call, owner)
    ensures Fits(Returned(s, id, call, outcome), owner)
  {}

  lemma LookingFits(tokenUrl: string, s: State, owner: string -> string, id: nat, call: Call, now: real)
    requires Fits(s, owner) && ProperCall(call, owner)
    ensures Fits(Looked(tokenUrl, s, id, call, now), owner)
  {
    var tokens := Resolve(s.store, call.session);
    if Refreshes(s.store, call.session, call.force, now, tokenUrl) {
      ResolvedIsHeld(s.store, owner, call.session);
    } else {
      ReturningFits(s, owner, id, call, if tokens.Some? then Token(tokens.value.access) else NoToken);
      ReturningFits(s, owner, id, call, NoToken);
    }
  }

  lemma WritingFits(s: State, owner: string -> string, id: nat, call: Call, refreshed: StoredTokens)
    requires Fits(s, owner) && ProperCall(call, owner) && refreshed.subject == owner(call.session) != ""
    ensures Fits(Written(s, id, call, refreshed), owner)
  {
    SavingFiles(s.store, owner, refreshed, Some(call.session));
    var saved := Save(s.store, refreshed, Some(call.session)).value;
    ReturningFits(s.(store := saved), owner, id, call, Token(refreshed.access));
  }

  lemma StepFits(tokenUrl: string, s: State, step: Step, owner: string -> string)
    requires Fits(s, owner) && Enabled(s, step) && ProperStep(s, step, owner)
    ensures Fits(Apply(tokenUrl, s, step), owner)
  {
    match step
    case Look(id, call, now) => LookingFits(tokenUrl, s, owner, id, call, now);
    case Answer(id, reply) => ReturningFits(s, owner, id, s.calls[id].call, NoToken);
    case Discard(id) => ForgettingFiles(s.store, owner, s.calls[id].call.session);
    case Write(id) => WritingFits(s, owner, id, s.calls[id].call, s.calls[id].refreshed);
    case BindSubject(id) => BindingFiles(s.store, owner, s.calls[id].bindTo, s.calls[id].call.session);
    case LookAgain(id, now) => LookingFits(tokenUrl, s, owner, id, s.calls[id].call, now);
    case Login(tokens, boundTo) => SavingFiles(s.store, owner, tokens, boundTo);
    case Rebinding(subject, session) => BindingFiles(s.store, owner, subject, session);
  }

  /** What a step does to the tokens of a subject, if anything: it saves some, or deletes them. */
  ghost function Touch(s: State, step: Step, owner: string -> string, subject: string): Option<Option<StoredTokens>>
    requires s.store.Valid() && Enabled(s, step)
  {
    match step
    case Write(id) => if s.calls[id].refreshed.subject == subject then Some(Some(s.calls[id].refreshed)) else None
    case Login(tokens, _) => if tokens.subject == subject then Some(Some(tokens)) else None
    case Discard(id) =>
      var session := s.calls[id].call.session;
      if owner(session) == subject && Resolve(s.store, session).Some? then Some(None) else None
    case _ => None
  }

  lemma StepTouches(tokenUrl: string, s: State, step: Step, owner: string -> string, subject: string)
    requires Fits(s, owner) && Enabled(s, step) && ProperStep(s, step, owner)
    ensures var touch := Touch(s, step, owner, subject);
            Held(Apply(tokenUrl, s, step).store, subject)
            == if touch.Some? then touch.value else Held(s.store, subject)
  {
    match step
    case Look(_, _, _) =>
    case Answer(_, _) =>
    case Discard(id) => ForgettingFiles(s.store, owner, s.calls[id].call.session);
    case Write(id) => SavingFiles(s.store, owner, s.calls[id].refreshed, Some(s.calls[id].call.session));
    case BindSubject(id) => BindingFiles(s.store, owner, s.calls[id].bindTo, s.calls[id].call.session);
    case LookAgain(_, _) =>
    case Login(tokens, boundTo) => SavingFiles(s.store, owner, tokens, boundTo);
    case Rebinding(who, session) => BindingFiles(s.store, owner, who, session);
  }

  ghost predicate ProperRun(tokenUrl: string, s: State, steps: seq<Step>, owner: string -> string)
    requires s.store.Valid() && ValidRun(tokenUrl, s, steps)
    decreases |steps|
  {
    steps == []
    || (ProperStep(s, steps[0], owner) && ProperRun(tokenUrl, Apply(tokenUrl, s, steps[0]), steps[1..], owner))
  }

  /** The last step of the run that touched the subject's tokens decides; `before` if none did. */
  ghost function LastTouch(tokenUrl: string, s: State, steps: seq<Step>, owner: string -> string, subject: string,
                           before: Option<StoredTokens>): Option<StoredTokens>
    requires s.store.Valid() && ValidRun(tokenUrl, s, steps)
    decreases |steps|
  {
    if steps == [] then before
    else
      var touch := Touch(s, steps[0], owner, subject);
      LastTouch(tokenUrl, Apply(tokenUrl, s, steps[0]), steps[1..], owner, subject,
                if touch.Some? then touch.value else before)
  }

  lemma {:induction false} RunTouches(tokenUrl: string, s: State, steps: seq<Step>, owner: string -> string,
                                      subject: string)
    requires Fits(s, owner) && ValidRun(tokenUrl, s, steps) && ProperRun(tokenUrl, s, steps, owner)
    ensures Fits(After(tokenUrl, s, steps), owner)
    ensures Held(After(tokenUrl, s, steps).store, subject)
            == LastTouch(tokenUrl, s, steps, owner, subject, Held(s.store, subject))
    decreases |steps|
  {
    if steps != [] {
      StepFits(tokenUrl, s, steps[0], owner);
      StepTouches(tokenUrl, s, steps[0], owner, subject);
      RunTouches(tokenUrl, Apply(tokenUrl, s, steps[0]), steps[1..], owner, subject);
    }
  }

  // ---------------------------------------------------------------- deleting what another call saved

  /** Deleting by the call's session takes tokens from its subject, and not those that it had sent. */
  ghost predicate Loses(s: State, id: nat)
    requires id in s.calls && Asking(s.calls[id])
  {
    var pc := s.calls[id];
    var held := Held(s.store, pc.sent.subject);
    held.Some? && held.value != pc.sent && Held(Forget(s.store, pc.call.session), pc.sent.subject).None?
  }

  /**
   In any interleaving after a lookup, the delete of a call that was rejected in the meantime takes
   tokens that were never rejected iff its session still resolves and the last save or delete for
   its subject since then was a save of other tokens.
  */
  lemma DiscardLosesIff(tokenUrl: string, s: State, steps: seq<Step>, owner: string -> string, id: nat)
    requires Fits(s, owner) && ValidRun(tokenUrl, s, steps) && ProperRun(tokenUrl, s, steps, owner)
    requires var calls := After(tokenUrl, s, steps).calls; id in calls && calls[id].Discarding?
    ensures var u := After(tokenUrl, s, steps);
            var pc := u.calls[id];
            var last := LastTouch(tokenUrl, s, steps, owner, pc.sent.subject, Held(s.store, pc.sent.subject));
            && (Loses(u, id) <==> Resolve(u.store, pc.call.session).Some? && last != Some(pc.sent))
            && (Loses(u, id) ==> last.Some? && Held(Apply(tokenUrl, u, Discard(id)).store, pc.sent.subject).None?)
  {
    var u := After(tokenUrl, s, steps);
    var session := u.calls[id].call.session;
    RunTouches(tokenUrl, s, steps, owner, u.calls[id].sent.subject);
    ForgettingFiles(u.store, owner, session);
    if Resolve(u.store, session).Some? {
      ResolvedIsHeld(u.store, owner, session);
    }
  }

  /** Nobody refreshes for the subject. */
  ghost predicate Idle(s: State, subject: string) {
    forall id | id in s.calls && Asking(s.calls[id]) :: s.calls[id].sent.subject != subject
  }

  ghost predicate LooksAlone(tokenUrl: string, s: State, call: Call, now: real)
    requires s.store.Valid()
  {
    Refreshes(s.store, call.session, call.force, now, tokenUrl) ==>
      Idle(s, Resolve(s.store, call.session).value.subject)
  }

  /** A refresh is begun, and a login saved, only while nobody else refreshes for that subject. */
  ghost predicate Exclusive(tokenUrl: string, s: State, step: Step)
    requires s.store.Valid() && Enabled(s, step)
  {
    match step
    case Look(_, call, now) => LooksAlone(tokenUrl, s, call, now)
    case LookAgain(id, now) => LooksAlone(tokenUrl, s, s.calls[id].call, now)
    case Login(tokens, _) => Idle(s, tokens.subject)
    case _ => true
  }

  ghost predicate ExclusiveRun(tokenUrl: string, s: State, steps: seq<Step>)
    requires s.store.Valid() && ValidRun(tokenUrl, s, steps)
    decreases |steps|
  {
    steps == []
    || (Exclusive(tokenUrl, s, steps[0]) && ExclusiveRun(tokenUrl, Apply(tokenUrl, s, steps[0]), steps[1..]))
  }

  /** Every refresh is alone with its subject, and the store still has the tokens it looked up. */
  ghost predicate Undisturbed(s: State) {
    && (forall id | id in s.calls && Asking(s.calls[id]) ::
          Held(s.store, s.calls[id].sent.subject) == Some(s.calls[id].sent))
    && (forall i, j | i in s.calls && j in s.calls && Asking(s.calls[i]) && Asking(s.calls[j])
                      && s.calls[i].sent.subject == s.calls[j].sent.subject :: i == j)
  }

  /** A call that asks after a step asked already with the same tokens, or has just looked them up. */
  lemma AskingCameFrom(tokenUrl: string, s: State, step: Step, id: nat)
    requires s.store.Valid() && Enabled(s, step)
    requires id in Apply(tokenUrl, s, step).calls && Asking(Apply(tokenUrl, s, step).calls[id])
    ensures var pc := Apply(tokenUrl, s, step).calls[id];
            || (id in s.calls && Asking(s.calls[id]) && s.calls[id].sent == pc.sent && !step.Discard? && !step.Write?)
            || (id in s.calls && Asking(s.calls[id]) && s.calls[id].sent == pc.sent && step.id != id)
            || (&& (step.Look? || step.LookAgain?) && step.id == id && pc.Refreshing?
                && pc.call == (if step.Look? then step.call else s.calls[id].call)
                && Refreshes(s.store, pc.call.session, pc.call.force, step.now, tokenUrl)
                && Resolve(s.store, pc.call.session) == Some(pc.sent))
  {}

  lemma StepKeepsSent(tokenUrl: string, s: State, step: Step, owner: string -> string, id: nat)
    requires Fits(s, owner) && Undisturbed(s) && Enabled(s, step) && ProperStep(s, step, owner)
    requires Exclusive(tokenUrl, s, step)
    requires id in Apply(tokenUrl, s, step).calls && Asking(Apply(tokenUrl, s, step).calls[id])
    ensures var u := Apply(tokenUrl, s, step); Held(u.store, u.calls[id].sent.subject) == Some(u.calls[id].sent)
  {
    var pc := Apply(tokenUrl, s, step).calls[id];
    AskingCameFrom(tokenUrl, s, step, id);
    if (step.Look? || step.LookAgain?) && step.id == id {
      ResolvedIsHeld(s.store, owner, pc.call.session);
    }
    StepTouches(tokenUrl, s, step, owner, pc.sent.subject);
  }

  lemma StepKeepsAlone(tokenUrl: string, s: State, step: Step, i: nat, j: nat)
    requires s.store.Valid() && Undisturbed(s) && Enabled(s, step) && Exclusive(tokenUrl, s, step)
    requires var u := Apply(tokenUrl, s, step);
             && i in u.calls && j in u.calls && Asking(u.calls[i]) && Asking(u.calls[j])
             && u.calls[i].sent.subject == u.calls[j].sent.subject
    ensures i == j
  {
    AskingCameFrom(tokenUrl, s, step, i);
    AskingCameFrom(tokenUrl, s, step, j);
  }

  lemma StepStaysUndisturbed(tokenUrl: string, s: State, step: Step, owner: string -> string)
    requires Fits(s, owner) && Undisturbed(s) && Enabled(s, step) && ProperStep(s, step, owner)
    requires Exclusive(tokenUrl, s, step)
    ensures Undisturbed(Apply(tokenUrl, s, step))
  {
    var u := Apply(tokenUrl, s, step);
    forall id | id in u.calls && Asking(u.calls[id])
      ensures Held(u.store, u.calls[id].sent.subject) == Some(u.calls[id].sent)
    {
      StepKeepsSent(tokenUrl, s, step, owner, id);
    }
    forall i, j | i in u.calls && j in u.calls && Asking(u.calls[i]) && Asking(u.calls[j])
                  && u.calls[i].sent.subject == u.calls[j].sent.subject
      ensures i == j
    {
      StepKeepsAlone(tokenUrl, s, step, i, j);
    }
  }

  lemma {:induction false} RunStaysUndisturbed(tokenUrl: string, s: State, steps: seq<Step>, owner: string -> string)
    requires Fits(s, owner) && Undisturbed(s) && ValidRun(tokenUrl, s, steps)
    requires ProperRun(tokenUrl, s, steps, owner) && ExclusiveRun(tokenUrl, s, steps)
    ensures Undisturbed(After(tokenUrl, s, steps))
    decreases |steps|
  {
    if steps != [] {
      StepFits(tokenUrl, s, steps[0], owner);
      StepStaysUndisturbed(tokenUrl, s, steps[0], owner);
      RunStaysUndisturbed(tokenUrl, Apply(tokenUrl, s, steps[0]), steps[1..], owner);
    }
  }

  /** If refreshes and logins of one subject never overlap, no call ever deletes tokens that another one saved. */
  lemma ExclusiveRunsLoseNothing(tokenUrl: string, s: State, steps: seq<Step>, owner: string -> string, id: nat)
    requires Fits(s, owner) && s.calls == map[] && ValidRun(tokenUrl, s, steps)
    requires ProperRun(tokenUrl, s, steps, owner) && ExclusiveRun(tokenUrl, s, steps)
    requires var calls := After(tokenUrl, s, steps).calls; id in calls && Asking(calls[id])
    ensures !Loses(After(tokenUrl, s, steps), id)
  {
    RunStaysUndisturbed(tokenUrl, s, steps, owner);
  }

  // ---------------------------------------------------------------- an overlap

  function LookTwice(a: nat, b: nat, session: string): seq<Step> {
    var call := Call(session, true, None);
    [Look(a, call, 0.0)] + ([Look(b, call, 0.0)] + [])
  }

  function Grant(a: nat, reply: Reply): seq<Step> {
    [Answer(a, reply)] + ([Write(a)] + [])
  }

  function Reject(b: nat, reply: Reply): seq<Step> {
    [Answer(b, reply)] + ([Discard(b)] + [])
  }

  lemma LookTwiceRuns(tokenUrl: string, s: State, a: nat, b: nat, session: string)
    requires s.store.Valid() && a !in s.calls && b !in s.calls && a != b
    requires Refreshes(s.store, session, true, 0.0, tokenUrl)
    ensures ValidRun(tokenUrl, s, LookTwice(a, b, session))
    ensures var pc := Refreshing(Call(session, true, None), Resolve(s.store, session).value);
            After(tokenUrl, s, LookTwice(a, b, session)) == s.(calls := s.calls[a := pc][b := pc])
  {
    var call := Call(session, true, None);
    RunStep(tokenUrl, Apply(tokenUrl, s, Look(a, call, 0.0)), Look(b, call, 0.0), []);
    RunStep(tokenUrl, s, Look(a, call, 0.0), [Look(b, call, 0.0)] + []);
  }

  lemma GrantRuns(tokenUrl: string, s: State, a: nat, reply: Reply)
    requires s.store.Valid() && a in s.calls && s.calls[a].Refreshing? && s.calls[a].call.subject.None?
    requires Grants(reply) && Save(s.store, reply.refreshed.value, Some(s.calls[a].call.session)).Some?
    ensures ValidRun(tokenUrl, s, Grant(a, reply))
    ensures var session := s.calls[a].call.session;
            After(tokenUrl, s, Grant(a, reply))
            == State(Save(s.store, reply.refreshed.value, Some(session)).value, s.calls - {a},
                     s.ended + [Ended(session, Token(reply.refreshed.value.access))])
  {
    RunStep(tokenUrl, Apply(tokenUrl, s, Answer(a, reply)), Write(a), []);
    RunStep(tokenUrl, s, Answer(a, reply), [Write(a)] + []);
  }

  lemma RejectRuns(tokenUrl: string, s: State, b: nat, reply: Reply)
    requires s.store.Valid() && b in s.calls && s.calls[b].Refreshing? && Rejects(reply)
    ensures ValidRun(tokenUrl, s, Reject(b, reply))
    ensures var session := s.calls[b].call.session;
            After(tokenUrl, s, Reject(b, reply))
            == State(Forget(s.store, session), s.calls - {b}, s.ended + [Ended(session, ReauthRequired)])
  {
    RunStep(tokenUrl, Apply(tokenUrl, s, Answer(b, reply)), Discard(b), []);
    RunStep(tokenUrl, s, Answer(b, reply), [Discard(b)] + []);
  }

  /** Two calls look up the same tokens, one is granted new ones, and the other is then rejected. */
  function Overlap(a: nat, b: nat, session: string, granted: Reply, rejected: Reply): seq<Step> {
    LookTwice(a, b, session) + (Grant(a, granted) + Reject(b, rejected))
  }

  lemma SavedThenForgotten(store: Store, owner: string -> string, tokens: StoredTokens, session: string)
    requires store.Valid() && Filed(store, owner) && Proper(Upsert(tokens, Some(session)), owner)
    ensures var saved := Save(store, tokens, Some(session));
            && saved.Some? && Resolve(saved.value, session) == Some(tokens)
            && Forget(saved.value, session).Valid() && Resolve(Forget(saved.value, session), session).None?
  {
    SavingFiles(store, owner, tokens, Some(session));
    if store.InPostgres? {
      PgUpsertReadsBack(store.rows, tokens, session, session);
    }
  }

  lemma OverlapRuns(tokenUrl: string, s: State, a: nat, b: nat, session: string, granted: Reply, rejected: Reply)
    requires s.store.Valid() && a !in s.calls && b !in s.calls && a != b
    requires Refreshes(s.store, session, true, 0.0, tokenUrl) && Grants(granted) && Rejects(rejected)
    requires Save(s.store, granted.refreshed.value, Some(session)).Some?
    ensures ValidRun(tokenUrl, s, Overlap(a, b, session, granted, rejected))
    ensures var u := After(tokenUrl, s, Overlap(a, b, session, granted, rejected));
            && u.store == Forget(Save(s.store, granted.refreshed.value, Some(session)).value, session)
            && u.calls == s.calls
  {
    LookTwiceRuns(tokenUrl, s, a, b, session);
    var s2 := After(tokenUrl, s, LookTwice(a, b, session));
    GrantRuns(tokenUrl, s2, a, granted);
    var s4 := After(tokenUrl, s2, Grant(a, granted));
    RejectRuns(tokenUrl, s4, b, rejected);
    RunAppend(tokenUrl, s2, Grant(a, granted), Reject(b, rejected));
    RunAppend(tokenUrl, s, LookTwice(a, b, session), Grant(a, granted) + Reject(b, rejected));
    assert s.calls[a := s2.calls[a]][b := s2.calls[b]] - {a} - {b} == s.calls;
  }

  /**
   From any state in which a session's tokens can be refreshed, two overlapping calls can end with
   the session without tokens although new ones were granted and saved: a rotated refresh token is
   rejected for the slower call, and its delete takes what the faster one saved.
  */
  lemma OverlapLosesTokens(tokenUrl: string, s: State, owner: string -> string, a: nat, b: nat, session: string,
                           granted: Reply, rejected: Reply)
    requires Fits(s, owner) && a !in s.calls && b !in s.calls && a != b && session != ""
    requires Refreshes(s.store, session, true, 0.0, tokenUrl)
    requires Grants(granted) && granted.refreshed.value.subject == owner(session) && Rejects(rejected)
    ensures ValidRun(tokenUrl, s, Overlap(a, b, session, granted, rejected))
    ensures var saved := Save(s.store, granted.refreshed.value, Some(session));
            var u := After(tokenUrl, s, Overlap(a, b, session, granted, rejected));
            && saved.Some? && Resolve(saved.value, session) == granted.refreshed
            && u.store == Forget(saved.value, session) && u.calls == s.calls
            && Resolve(u.store, session).None?
  {
    ResolvedIsHeld(s.store, owner, session);
    SavedThenForgotten(s.store, owner, granted.refreshed.value, session);
    OverlapRuns(tokenUrl, s, a, b, session, granted, rejected);
  }

  // ---------------------------------------------------------------- after a rejection

  /** The step writes no tokens of this subject, and this session stays with this subject. */
  ghost predicate LeavesAlone(s: State, step: Step, subject: string, session: string)
    requires Enabled(s, step)
  {
    match step
    case Write(id) => s.calls[id].refreshed.subject != subject && s.calls[id].call.session != session
    case BindSubject(id) => s.calls[id].call.session == session ==> s.calls[id].bindTo == subject
    case Login(tokens, boundTo) => tokens.subject != subject && boundTo != Some(session)
    case Rebinding(who, what) => what == session ==> who == subject
    case _ => true
  }

  ghost predicate AllLeaveAlone(tokenUrl: string, s: State, steps: seq<Step>, subject: string, session: string)
    requires s.store.Valid() && ValidRun(tokenUrl, s, steps)
    decreases |steps|
  {
    steps == []
    || (&& LeavesAlone(s, steps[0], subject, session)
        && AllLeaveAlone(tokenUrl, Apply(tokenUrl, s, steps[0]), steps[1..], subject, session))
  }

  /** From entry `n` on, no call for the session has ended with a token. */
  ghost predicate NoTokenSince(ended: seq<Ended>, n: nat, session: string) {
    forall i | n <= i < |ended| && ended[i].session == session :: !ended[i].outcome.Token?
  }

  lemma StepKeepsDead(tokenUrl: string, s: State, step: Step, subject: string, session: string)
    requires s.store.Valid() && Dead(s.store, subject, session)
    requires Enabled(s, step) && LeavesAlone(s, step, subject, session)
    ensures Dead(Apply(tokenUrl, s, step).store, subject, session)
  {}

  lemma StepHandsOutNothing(tokenUrl: string, s: State, step: Step, subject: string, session: string, n: nat)
    requires s.store.Valid() && Resolve(s.store, session).None? && NoTokenSince(s.ended, n, session)
    requires Enabled(s, step) && LeavesAlone(s, step, subject, session)
    ensures var u := Apply(tokenUrl, s, step);
            |s.ended| <= |u.ended| && NoTokenSince(u.ended, n, session)
  {}

  lemma {:induction false} RunKeepsDead(tokenUrl: string, s: State, steps: seq<Step>, subject: string, session: string,
                                        n: nat)
    requires s.store.Valid() && Dead(s.store, subject, session) && ValidRun(tokenUrl, s, steps)
    requires AllLeaveAlone(tokenUrl, s, steps, subject, session) && NoTokenSince(s.ended, n, session)
    ensures var u := After(tokenUrl, s, steps); Dead(u.store, subject, session) && NoTokenSince(u.ended, n, session)
    decreases |steps|
  {
    if steps != [] {
      DeadHasNoTokens(s.store, subject, session);
      StepKeepsDead(tokenUrl, s, steps[0], subject, session);
      StepHandsOutNothing(tokenUrl, s, steps[0], subject, session, n);
      RunKeepsDead(tokenUrl, Apply(tokenUrl, s, steps[0]), steps[1..], subject, session, n);
    }
  }

  /**
   Once a rejected call has deleted the tokens it found, no interleaving of further calls, binds,
   second tries and logins that writes nothing for the subject lets the session resolve again, and
   no call for the session ends with a token.
  */
  lemma RejectedSessionStaysOut(tokenUrl: string, s: State, id: nat, steps: seq<Step>)
    requires s.store.Valid() && Enabled(s, Discard(id)) && Resolve(s.store, s.calls[id].call.session).Some?
    requires ValidRun(tokenUrl, Apply(tokenUrl, s, Discard(id)), steps)
    requires var session := s.calls[id].call.session;
             AllLeaveAlone(tokenUrl, Apply(tokenUrl, s, Discard(id)), steps, SubjectOf(s.store, session), session)
    ensures var session := s.calls[id].call.session;
            var u := After(tokenUrl, Apply(tokenUrl, s, Discard(id)), steps);
            Resolve(u.store, session).None? && NoTokenSince(u.ended, |s.ended|, session)
  {
    var session := s.calls[id].call.session;
    RejectionIsDeadly(s.store, session);
    RunKeepsDead(tokenUrl, Apply(tokenUrl, s, Discard(id)), steps, SubjectOf(s.store, session), session, |s.ended|);
    var u := After(tokenUrl, Apply(tokenUrl, s, Discard(id)), steps);
    DeadHasNoTokens(u.store, SubjectOf(s.store, session), session);
  }
}
