/** What each operation of the token stores and of the token cache leaves behind, row by row and entry by entry. */
module StoreMeaning {
  import opened Wrappers
  import opened TokenStores
  import TC = TokenCache

  /** No other subject's row has changed, come or gone. */
  ghost predicate OtherRowsStay(p: Rows, q: Rows, subject: string) {
    forall s | s != subject :: (s in p <==> s in q) && (s in p ==> q[s] == p[s])
  }

  ghost predicate HeldElsewhere(p: Rows, subject: string, session: string) {
    exists s :: s in p && s != subject && p[s].session == Some(session)
  }

  /**
   Saving in Postgres fails exactly if another subject's row has the session. Otherwise the subject's
   row has the new tokens and the session given, or if none is given the one it had.
  */
  lemma PgUpsertDoes(p: Rows, tokens: StoredTokens, session: Option<string>)
    requires SessionsUnique(p)
    ensures var subject, after := tokens.subject, PgUpsert(p, tokens, session);
            if session.Some? && HeldElsewhere(p, subject, session.value) then after == Err(UniqueViolation)
            else
              && after.Ok? && OtherRowsStay(p, after.value, subject)
              && subject in after.value && after.value[subject].tokens == tokens
              && after.value[subject].session
                 == if session.Some? then session else if subject in p then p[subject].session else None
  {}

  /** Binding in Postgres changes only the session of the subject's row, if it has one and nobody else holds it. */
  lemma PgBindDoes(p: Rows, subject: string, session: string)
    ensures var after := PgBind(p, subject, session);
            if subject !in p then after == Ok(p)
            else if HeldElsewhere(p, subject, session) then after == Err(UniqueViolation)
            else
              && after.Ok? && OtherRowsStay(p, after.value, subject)
              && subject in after.value && after.value[subject] == Row(Some(session), p[subject].tokens)
  {}

  /** A save that names no session changes only what the subject's own sessions resolve to. */
  lemma SavingUnboundReadsBack(m: Memory, p: Rows, tokens: StoredTokens, other: string)
    requires SessionsUnique(p) && tokens.subject != ""
    ensures var bound := other in m.sessionToSubject && m.sessionToSubject[other] == tokens.subject;
            && MemGet(MemUpsert(m, tokens, None), other) == (if bound then Some(tokens) else MemGet(m, other))
            && MemUpsert(m, tokens, Some("")) == MemUpsert(m, tokens, None)
    ensures var after := PgUpsert(p, tokens, None);
            && after.Ok? && SessionsUnique(after.value)
            && PgGet(after.value, other)
               == if tokens.subject in p && p[tokens.subject].session == Some(other) then Some(tokens)
                  else PgGet(p, other)
  {
    PgUpsertDoes(p, tokens, None);
    var q := PgUpsert(p, tokens, None).value;
    assert SessionsUnique(q);
    HolderIsUnique(p, other);
    HolderIsUnique(q, other);
  }

  // ---------------------------------------------------------------- the cache

  /** A get answers with the entry's token until the entry runs out, and drops nothing but an entry that ran out. */
  lemma CacheGetDoes(entries: TC.Entries, key: string, now: real)
    ensures var (after, answer) := TC.CacheGet(entries, key, now);
            && answer == (if key in entries && now < entries[key].expiresAt then Some(entries[key].token) else None)
            && (forall k :: k in after <==> k in entries && (k != key || now < entries[k].expiresAt))
            && (forall k | k in after :: after[k] == entries[k])
  {}

  /**
   A get after a put: of a token with more than five seconds to live it answers with that token until
   the maximal lifetime or the remaining one less five seconds has passed since the second clock
   read; otherwise, and for every other key, it answers as without the put.
  */
  lemma PutThenGet(entries: TC.Entries, maxTtl: real, key: string, token: string, expiresAt: real,
                   first: real, second: real, other: string, now: real)
    requires maxTtl > 0.0
    ensures var after := TC.CachePut(entries, maxTtl, key, token, expiresAt, first, second);
            var left := expiresAt - first - 5.0;
            TC.CacheGet(after, other, now).1
            == if other == key && left > 0.0
               then (if now < second + maxTtl && now < second + left then Some(token) else None)
               else TC.CacheGet(entries, other, now).1
  {}

  /** Without a positive maximal lifetime nothing is ever stored. */
  lemma NothingIsCached(entries: TC.Entries, maxTtl: real, key: string, token: string, expiresAt: real,
                        first: real, second: real)
    requires maxTtl <= 0.0
    ensures TC.CachePut(entries, maxTtl, key, token, expiresAt, first, second) == entries
  {}
}
