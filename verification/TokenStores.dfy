/** The two stores for a user's tokens: in memory, and as rows of a Postgres table. */
module TokenStores {
  import opened Wrappers

  datatype StoredTokens = StoredTokens(access: string, refresh: Option<string>, expiresAt: real, subject: string)

  datatype Memory = Memory(bySubject: map<string, StoredTokens>, sessionToSubject: map<string, string>)

  const EMPTY_MEMORY := Memory(map[], map[])

  function MemUpsert(m: Memory, tokens: StoredTokens, session: Option<string>): Memory {
    Memory(m.bySubject[tokens.subject := tokens],
           if session.Some? && session.value != "" then m.sessionToSubject[session.value := tokens.subject]
           else m.sessionToSubject)
  }

  function MemGet(m: Memory, session: string): Option<StoredTokens> {
    if session !in m.sessionToSubject || m.sessionToSubject[session] == "" then None
    else if m.sessionToSubject[session] !in m.bySubject then None
    else Some(m.bySubject[m.sessionToSubject[session]])
  }

  function MemBind(m: Memory, subject: string, session: string): Memory {
    m.(sessionToSubject := m.sessionToSubject[session := subject])
  }

  function MemDelete(m: Memory, session: string): Memory {
    if session !in m.sessionToSubject then m
    else
      var subject := m.sessionToSubject[session];
      Memory(if subject == "" then m.bySubject else m.bySubject - {subject}, m.sessionToSubject - {session})
  }

  /** A row of `chainlit_oauth_tokens`; the subject is the key and the session is unique. */
  datatype Row = Row(session: Option<string>, tokens: StoredTokens)

  type Rows = map<string, Row>

  ghost predicate SessionsUnique(p: Rows) {
    forall s, t | s in p && t in p && p[s].session.Some? && p[s].session == p[t].session :: s == t
  }

  /** Another subject's row already has this session id. */
  predicate Taken(p: Rows, subject: string, session: Option<string>) {
    session.Some? && exists s | s in p :: s != subject && p[s].session == session
  }

  datatype StoreError = UniqueViolation

  /** INSERT ... ON CONFLICT (subject) DO UPDATE, where a NULL session keeps the stored one. */
  function PgUpsert(p: Rows, tokens: StoredTokens, session: Option<string>): Result<Rows, StoreError> {
    var kept := if session.None? && tokens.subject in p then p[tokens.subject].session else session;
    if Taken(p, tokens.subject, kept) then Err(UniqueViolation) else Ok(p[tokens.subject := Row(kept, tokens)])
  }

  /** The subject whose row has this session. */
  function Holder(p: Rows, session: string): (r: Option<string>)
    requires SessionsUnique(p)
    ensures r.Some? ==> r.value in p && p[r.value].session == Some(session)
    ensures r.None? ==> forall s | s in p :: p[s].session != Some(session)
  {
    if exists s | s in p :: p[s].session == Some(session) then
      var s :| s in p && p[s].session == Some(session);
      Some(s)
    else None
  }

  lemma HolderIsUnique(p: Rows, session: string)
    requires SessionsUnique(p)
    ensures forall s | s in p && p[s].session == Some(session) :: Holder(p, session) == Some(s)
  {}

  function PgGet(p: Rows, session: string): Option<StoredTokens>
    requires SessionsUnique(p)
  {
    match Holder(p, session)
    case None => None
    case Some(subject) => Some(p[subject].tokens)
  }

  function PgBind(p: Rows, subject: string, session: string): Result<Rows, StoreError> {
    if subject !in p then Ok(p)
    else if Taken(p, subject, Some(session)) then Err(UniqueViolation)
    else Ok(p[subject := p[subject].(session := Some(session))])
  }

  function PgDelete(p: Rows, session: string): Rows {
    map s | s in p && p[s].session != Some(session) :: p[s]
  }

  /** What memory resolves after saving, binding or deleting, for every session. */
  lemma MemReadsBack(m: Memory, tokens: StoredTokens, session: string, other: string)
    requires tokens.subject != "" && session != ""
    ensures var subject := tokens.subject;
            var bound := session == other || (other in m.sessionToSubject && m.sessionToSubject[other] == subject);
            MemGet(MemUpsert(m, tokens, Some(session)), other) == if bound then Some(tokens) else MemGet(m, other)
    ensures MemGet(MemBind(m, tokens.subject, session), other)
            == if session != other then MemGet(m, other)
               else if tokens.subject in m.bySubject then Some(m.bySubject[tokens.subject]) else None
    ensures session in m.sessionToSubject ==>
              var gone := session == other
                          || (other in m.sessionToSubject && m.sessionToSubject[other] == m.sessionToSubject[session]);
              MemGet(MemDelete(m, session), other) == if gone then None else MemGet(m, other)
  {}

  /** What Postgres resolves after saving, for every session: the subject's earlier session is gone. */
  lemma PgUpsertReadsBack(p: Rows, tokens: StoredTokens, session: string, other: string)
    requires SessionsUnique(p) && PgUpsert(p, tokens, Some(session)).Ok?
    ensures var q := PgUpsert(p, tokens, Some(session)).value;
            SessionsUnique(q)
            && PgGet(q, other) == if session == other then Some(tokens)
                                  else if Holder(p, other) == Some(tokens.subject) then None else PgGet(p, other)
  {
    HolderIsUnique(p, other);
    HolderIsUnique(PgUpsert(p, tokens, Some(session)).value, other);
    assert PgUpsert(p, tokens, Some(session)).value[tokens.subject].session == Some(session);
  }

  lemma PgBindReadsBack(p: Rows, subject: string, session: string, other: string)
    requires SessionsUnique(p) && PgBind(p, subject, session).Ok?
    ensures var q := PgBind(p, subject, session).value;
            SessionsUnique(q)
            && PgGet(q, other) == if subject !in p then PgGet(p, other)
                                  else if session == other then Some(p[subject].tokens)
                                  else if Holder(p, other) == Some(subject) then None else PgGet(p, other)
  {
    HolderIsUnique(p, other);
    HolderIsUnique(PgBind(p, subject, session).value, other);
    if subject in p {
      assert PgBind(p, subject, session).value[subject].session == Some(session);
    }
  }

  lemma PgDeleteReadsBack(p: Rows, session: string, other: string)
    requires SessionsUnique(p)
    ensures SessionsUnique(PgDelete(p, session))
    ensures PgGet(PgDelete(p, session), other) == if session == other then None else PgGet(p, other)
  {
    HolderIsUnique(PgDelete(p, session), other);
  }

  // ---------------------------------------------------------------- the forward simulation

  datatype Op =
    | Upsert(tokens: StoredTokens, boundTo: Option<string>)
    | Bind(subject: string, session: string)
    | Get(session: string)
    | Delete(session: string)

  function MemApply(m: Memory, op: Op): Memory {
    match op
    case Upsert(tokens, session) => MemUpsert(m, tokens, session)
    case Bind(subject, session) => MemBind(m, subject, session)
    case Get(_) => m
    case Delete(session) => MemDelete(m, session)
  }

  /** A statement that fails changes nothing. */
  function PgApply(p: Rows, op: Op): Rows {
    match op
    case Upsert(tokens, session) => var r := PgUpsert(p, tokens, session); if r.Ok? then r.value else p
    case Bind(subject, session) => var r := PgBind(p, subject, session); if r.Ok? then r.value else p
    case Get(_) => p
    case Delete(session) => PgDelete(p, session)
  }

  /** Subjects and sessions have names, and a session belongs to the one subject `owner` gives it. */
  ghost predicate Proper(op: Op, owner: string -> string) {
    match op
    case Upsert(tokens, session) =>
      tokens.subject != "" && (session.Some? ==> session.value != "" && owner(session.value) == tokens.subject)
    case Bind(subject, session) => subject != "" && session != "" && owner(session) == subject
    case Get(_) => true
    case Delete(_) => true
  }

  ghost predicate PgValid(p: Rows, owner: string -> string) {
    && (forall s | s in p :: s != "" && p[s].tokens.subject == s)
    && (forall s | s in p && p[s].session.Some? :: owner(p[s].session.value) == s)
  }

  lemma ValidIsUnique(p: Rows, owner: string -> string)
    requires PgValid(p, owner)
    ensures SessionsUnique(p)
  {}

  /** What Postgres knows, the memory store knows too. */
  ghost predicate Simulates(p: Rows, m: Memory) {
    forall s | s in p ::
      && s in m.bySubject && m.bySubject[s] == p[s].tokens
      && (p[s].session.Some? ==>
            p[s].session.value in m.sessionToSubject && m.sessionToSubject[p[s].session.value] == s)
  }

  /**
   A delete keeps memory ahead of Postgres exactly when Postgres resolves the session or does not
   know the subject that memory has for it.
  */
  lemma DeleteKeepsSimulationIff(p: Rows, m: Memory, owner: string -> string, session: string)
    requires PgValid(p, owner) && SessionsUnique(p) && Simulates(p, m)
    ensures Simulates(PgDelete(p, session), MemDelete(m, session)) <==>
            PgGet(p, session).Some? || session !in m.sessionToSubject || m.sessionToSubject[session] !in p
  {}

  lemma StepSimulates(p: Rows, m: Memory, owner: string -> string, op: Op)
    requires PgValid(p, owner) && SessionsUnique(p) && Simulates(p, m) && Proper(op, owner)
    requires op.Delete? ==> PgGet(p, op.session).Some?
    ensures PgValid(PgApply(p, op), owner) && Simulates(PgApply(p, op), MemApply(m, op))
    ensures op.Upsert? ==> PgUpsert(p, op.tokens, op.boundTo).Ok?
    ensures op.Bind? ==> PgBind(p, op.subject, op.session).Ok?
  {}

  /** Every operation is proper, and every delete follows a lookup that Postgres resolved. */
  ghost predicate ProperRun(p: Rows, ops: seq<Op>, owner: string -> string)
    decreases |ops|
  {
    ops == [] ||
    (&& Proper(ops[0], owner)
     && (ops[0].Delete? ==> exists s | s in p :: p[s].session == Some(ops[0].session))
     && ProperRun(PgApply(p, ops[0]), ops[1..], owner))
  }

  function PgRun(p: Rows, ops: seq<Op>): Rows
    decreases |ops|
  {
    if ops == [] then p else PgRun(PgApply(p, ops[0]), ops[1..])
  }

  function MemRun(m: Memory, ops: seq<Op>): Memory
    decreases |ops|
  {
    if ops == [] then m else MemRun(MemApply(m, ops[0]), ops[1..])
  }

  lemma {:induction false} RunSimulates(p: Rows, m: Memory, ops: seq<Op>, owner: string -> string)
    requires PgValid(p, owner) && Simulates(p, m) && ProperRun(p, ops, owner)
    ensures PgValid(PgRun(p, ops), owner) && Simulates(PgRun(p, ops), MemRun(m, ops))
    decreases |ops|
  {
    if ops != [] {
      ValidIsUnique(p, owner);
      StepSimulates(p, m, owner, ops[0]);
      RunSimulates(PgApply(p, ops[0]), MemApply(m, ops[0]), ops[1..], owner);
    }
  }

  /** Along any proper run, a session that Postgres resolves the memory store resolves to the same tokens. */
  lemma MemoryResolvesWhatPostgresDoes(ops: seq<Op>, owner: string -> string, session: string)
    requires ProperRun(map[], ops, owner)
    ensures var p, m := PgRun(map[], ops), MemRun(EMPTY_MEMORY, ops);
            && SessionsUnique(p)
            && (PgGet(p, session).Some? ==> MemGet(m, session) == PgGet(p, session))
  {
    RunSimulates(map[], EMPTY_MEMORY, ops, owner);
    ValidIsUnique(PgRun(map[], ops), owner);
  }

  /** Not the other way round: memory keeps resolving a session that a later bind replaced in Postgres. */
  lemma RebindingSeparatesTheStores(tokens: StoredTokens, first: string, second: string)
    requires tokens.subject != "" && first != "" && second != "" && first != second
    ensures var ops := [Upsert(tokens, Some(first))] + ([Bind(tokens.subject, second)] + []);
            var p, m := PgRun(map[], ops), MemRun(EMPTY_MEMORY, ops);
            && SessionsUnique(p)
            && PgGet(p, first).None? && MemGet(m, first) == Some(tokens)
            && PgGet(p, second) == MemGet(m, second) == Some(tokens)
  {
    var bind := [Bind(tokens.subject, second)] + [];
    var ops := [Upsert(tokens, Some(first))] + bind;
    assert ops[1..] == bind && bind[1..] == [];
    var p1 := PgApply(map[], ops[0]);
    assert p1 == map[tokens.subject := Row(Some(first), tokens)];
    var p2 := PgApply(p1, bind[0]);
    assert p2 == map[tokens.subject := Row(Some(second), tokens)];
    assert PgRun(p2, []) == p2 && PgRun(p1, bind) == p2 && PgRun(map[], ops) == p2;
    var m1 := MemApply(EMPTY_MEMORY, ops[0]);
    var m2 := MemApply(m1, bind[0]);
    assert MemRun(m2, []) == m2 && MemRun(m1, bind) == m2 && MemRun(EMPTY_MEMORY, ops) == m2;
    assert Holder(p2, second) == Some(tokens.subject);
  }

  // ---------------------------------------------------------------- when the stores agree

  /** Memory files tokens under their subject and a session under the subject it belongs to. */
  ghost predicate MemValid(m: Memory, owner: string -> string) {
    && (forall s | s in m.bySubject :: m.bySubject[s].subject == s)
    && (forall x | x in m.sessionToSubject :: m.sessionToSubject[x] == owner(x) != "")
  }

  /** Every session is resolved alike. */
  ghost predicate SameAnswers(p: Rows, m: Memory)
    requires SessionsUnique(p)
  {
    forall x :: MemGet(m, x) == PgGet(p, x)
  }

  ghost predicate Together(p: Rows, m: Memory, owner: string -> string) {
    PgValid(p, owner) && MemValid(m, owner) && SessionsUnique(p) && Simulates(p, m)
  }

  /** What it takes beyond the simulation: memory resolves a session only if Postgres has it on its subject's row. */
  ghost predicate NothingStale(p: Rows, m: Memory) {
    forall x | x in m.sessionToSubject && m.sessionToSubject[x] in m.bySubject ::
      m.sessionToSubject[x] in p && p[m.sessionToSubject[x]].session == Some(x)
  }

  lemma SameIffNothingStale(p: Rows, m: Memory, owner: string -> string)
    requires Together(p, m, owner)
    ensures SameAnswers(p, m) <==> NothingStale(p, m)
  {
    if SameAnswers(p, m) {
      forall x | x in m.sessionToSubject && m.sessionToSubject[x] in m.bySubject
        ensures m.sessionToSubject[x] in p && p[m.sessionToSubject[x]].session == Some(x)
      {
        assert MemGet(m, x) == PgGet(p, x);
      }
    }
  }

  /**
   The calls after which the stores still agree, judged before the call. A subject with a row may be
   bound only to the session of that row, unless it has none; a subject without a row may be bound
   only if memory has no tokens for it, and its tokens may be saved only if memory has no other
   session for it. A lookup or a delete never separates the stores.
  */
  ghost predicate KeepsAgreement(p: Rows, m: Memory, op: Op) {
    match op
    case Upsert(tokens, session) =>
      if tokens.subject in p then
        session.None? || p[tokens.subject].session == None || p[tokens.subject].session == session
      else
        forall x | x in m.sessionToSubject && m.sessionToSubject[x] == tokens.subject :: session == Some(x)
    case Bind(subject, session) =>
      if subject in p then p[subject].session == None || p[subject].session == Some(session)
      else subject !in m.bySubject
    case Get(_) => true
    case Delete(_) => true
  }

  lemma UpsertAgreesIff(p: Rows, m: Memory, owner: string -> string, op: Op)
    requires Together(p, m, owner) && NothingStale(p, m) && Proper(op, owner) && op.Upsert?
    ensures NothingStale(PgApply(p, op), MemApply(m, op)) <==> KeepsAgreement(p, m, op)
  {
    StepSimulates(p, m, owner, op);
    var q, n, subject := PgApply(p, op), MemApply(m, op), op.tokens.subject;
    if subject in p && op.boundTo.Some? && p[subject].session.Some? {
      var bound := p[subject].session.value;
      assert n.sessionToSubject[bound] == subject && q[subject].session == op.boundTo;
    }
    if NothingStale(q, n) && subject !in p {
      forall x | x in m.sessionToSubject && m.sessionToSubject[x] == subject
        ensures op.boundTo == Some(x)
      {
        assert n.sessionToSubject[x] == subject && q[subject].session == op.boundTo;
      }
    }
  }

  lemma BindAgreesIff(p: Rows, m: Memory, owner: string -> string, op: Op)
    requires Together(p, m, owner) && NothingStale(p, m) && Proper(op, owner) && op.Bind?
    ensures NothingStale(PgApply(p, op), MemApply(m, op)) <==> KeepsAgreement(p, m, op)
  {
    StepSimulates(p, m, owner, op);
    var q, n := PgApply(p, op), MemApply(m, op);
    assert n.sessionToSubject[op.session] == op.subject;
    if op.subject in p && p[op.subject].session.Some? {
      assert n.sessionToSubject[p[op.subject].session.value] == op.subject;
    }
  }

  lemma DeleteAgrees(p: Rows, m: Memory, owner: string -> string, session: string)
    requires Together(p, m, owner) && NothingStale(p, m)
    ensures Simulates(PgDelete(p, session), MemDelete(m, session))
    ensures NothingStale(PgDelete(p, session), MemDelete(m, session))
  {}

  lemma StepStaysTogether(p: Rows, m: Memory, owner: string -> string, op: Op)
    requires Together(p, m, owner) && NothingStale(p, m) && Proper(op, owner)
    ensures Together(PgApply(p, op), MemApply(m, op), owner)
  {
    if op.Delete? {
      DeleteAgrees(p, m, owner, op.session);
    } else {
      StepSimulates(p, m, owner, op);
    }
    ValidIsUnique(PgApply(p, op), owner);
  }

  /** A call keeps the stores in agreement on every session iff its guard holds before it. */
  lemma StepAgreesIff(p: Rows, m: Memory, owner: string -> string, op: Op)
    requires Together(p, m, owner) && SameAnswers(p, m) && Proper(op, owner)
    ensures Together(PgApply(p, op), MemApply(m, op), owner)
    ensures SameAnswers(PgApply(p, op), MemApply(m, op)) <==> KeepsAgreement(p, m, op)
  {
    SameIffNothingStale(p, m, owner);
    StepStaysTogether(p, m, owner, op);
    SameIffNothingStale(PgApply(p, op), MemApply(m, op), owner);
    match op
    case Upsert(_, _) => UpsertAgreesIff(p, m, owner, op);
    case Bind(_, _) => BindAgreesIff(p, m, owner, op);
    case Get(_) =>
    case Delete(session) => DeleteAgrees(p, m, owner, session);
  }

  /** The stores answer alike before and after every call of the run. */
  ghost predicate AlwaysAgree(p: Rows, m: Memory, ops: seq<Op>)
    decreases |ops|
  {
    && SessionsUnique(p) && SameAnswers(p, m)
    && (ops == [] || AlwaysAgree(PgApply(p, ops[0]), MemApply(m, ops[0]), ops[1..]))
  }

  /** Every call of the run meets its guard. */
  ghost predicate GuardsHold(p: Rows, m: Memory, ops: seq<Op>)
    decreases |ops|
  {
    ops == [] || (KeepsAgreement(p, m, ops[0]) && GuardsHold(PgApply(p, ops[0]), MemApply(m, ops[0]), ops[1..]))
  }

  lemma {:induction false} RunAgreesIff(p: Rows, m: Memory, ops: seq<Op>, owner: string -> string)
    requires Together(p, m, owner) && SameAnswers(p, m)
    requires forall op | op in ops :: Proper(op, owner)
    ensures AlwaysAgree(p, m, ops) <==> GuardsHold(p, m, ops)
    decreases |ops|
  {
    if ops != [] {
      StepAgreesIff(p, m, owner, ops[0]);
      if KeepsAgreement(p, m, ops[0]) {
        RunAgreesIff(PgApply(p, ops[0]), MemApply(m, ops[0]), ops[1..], owner);
      }
    }
  }

  /**
   Along any run in which a session is only ever bound to the one subject it belongs to, the two
   stores resolve every session alike after every call iff every call meets its guard.
  */
  lemma StoresAgreeIff(ops: seq<Op>, owner: string -> string)
    requires forall op | op in ops :: Proper(op, owner)
    ensures AlwaysAgree(map[], EMPTY_MEMORY, ops) <==> GuardsHold(map[], EMPTY_MEMORY, ops)
  {
    RunAgreesIff(map[], EMPTY_MEMORY, ops, owner);
  }

  // ---------------------------------------------------------------- the store classes

  class MemoryTokenStore {
    var bySubject: map<string, StoredTokens>
    var sessionToSubject: map<string, string>

    constructor ()
      ensures Contents() == EMPTY_MEMORY
    {
      bySubject, sessionToSubject := map[], map[];
    }

    ghost function Contents(): Memory
      reads this
    {
      Memory(bySubject, sessionToSubject)
    }

    method Upsert(tokens: StoredTokens, session: Option<string>)
      modifies this
      ensures Contents() == MemUpsert(old(Contents()), tokens, session)
    {
      bySubject := bySubject[tokens.subject := tokens];
      if session.Some? && session.value != "" {
        sessionToSubject := sessionToSubject[session.value := tokens.subject];
      }
    }

    method GetBySession(session: string) returns (tokens: Option<StoredTokens>)
      ensures tokens == MemGet(Contents(), session)
    {
      var subject := if session in sessionToSubject then sessionToSubject[session] else "";
      if subject == "" {
        return None;
      }
      tokens := if subject in bySubject then Some(bySubject[subject]) else None;
    }

    method BindSession(subject: string, session: string)
      modifies this
      ensures Contents() == MemBind(old(Contents()), subject, session)
    {
      sessionToSubject := sessionToSubject[session := subject];
    }

    method DeleteBySession(session: string)
      modifies this
      ensures Contents() == MemDelete(old(Contents()), session)
    {
      if session in sessionToSubject {
        var subject := sessionToSubject[session];
        sessionToSubject := sessionToSubject - {session};
        if subject != "" {
          bySubject := bySubject - {subject};
        }
      }
    }
  }

  class PostgresTokenStore {
    var rows: Rows

    constructor ()
      ensures rows == map[]
    {
      rows := map[];
    }

    method Upsert(tokens: StoredTokens, session: Option<string>) returns (failure: Option<StoreError>)
      modifies this
      ensures match PgUpsert(old(rows), tokens, session)
              case Ok(after) => rows == after && failure.None?
              case Err(e) => rows == old(rows) && failure == Some(e)
      ensures SessionsUnique(old(rows)) ==> SessionsUnique(rows)
    {
      var outcome := PgUpsert(rows, tokens, session);
      if outcome.Err? {
        return Some(outcome.error);
      }
      rows := outcome.value;
      failure := None;
    }

    method GetBySession(session: string) returns (tokens: Option<StoredTokens>)
      requires SessionsUnique(rows)
      ensures forall s | s in rows && rows[s].session == Some(session) :: tokens == Some(rows[s].tokens)
      ensures tokens.Some? ==> exists s :: s in rows && rows[s] == Row(Some(session), tokens.value)
      ensures tokens == PgGet(rows, session)
    {
      if s :| s in rows && rows[s].session == Some(session) {
        return Some(rows[s].tokens);
      }
      tokens := None;
    }

    method BindSession(subject: string, session: string) returns (failure: Option<StoreError>)
      modifies this
      ensures match PgBind(old(rows), subject, session)
              case Ok(after) => rows == after && failure.None?
              case Err(e) => rows == old(rows) && failure == Some(e)
      ensures SessionsUnique(old(rows)) ==> SessionsUnique(rows)
    {
      var outcome := PgBind(rows, subject, session);
      if outcome.Err? {
        return Some(outcome.error);
      }
      rows := outcome.value;
      failure := None;
    }

    method DeleteBySession(session: string)
      modifies this
      ensures forall s :: s in rows <==> s in old(rows) && old(rows)[s].session != Some(session)
      ensures forall s | s in rows :: rows[s] == old(rows)[s]
      ensures SessionsUnique(old(rows)) ==> SessionsUnique(rows) && PgGet(rows, session).None?
      ensures rows == PgDelete(old(rows), session)
    {
      rows := PgDelete(rows, session);
    }
  }
}
