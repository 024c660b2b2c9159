/** The gateway's cache of exchanged tokens: its keys, its clock arithmetic and its history. */
module TokenCache {
  import opened Wrappers
  import Text

  datatype CacheEntry = CacheEntry(token: string, expiresAt: real)

  type Entries = map<string, CacheEntry>

  const MARGIN := 5.0

  function Min(a: real, b: real): real {
    if a <= b then a else b
  }

  function Max(a: real, b: real): real {
    if a >= b then a else b
  }

  /** How long a token is kept, judged by the first clock read of a put. */
  function Ttl(maxTtl: real, expiresAt: real, now: real): real {
    Min(maxTtl, Max(0.0, expiresAt - now - MARGIN))
  }

  /** `get`: an entry that has run out is dropped. */
  function CacheGet(entries: Entries, key: string, now: real): (Entries, Option<string>) {
    if key !in entries || entries[key].expiresAt <= now then (entries - {key}, None)
    else (entries, Some(entries[key].token))
  }

  /** `put` reads the clock twice: once to judge the lifetime, once to date it. */
  function CachePut(entries: Entries, maxTtl: real, key: string, token: string, expiresAt: real,
                    first: real, second: real): Entries
  {
    var ttl := Ttl(maxTtl, expiresAt, first);
    if ttl <= 0.0 then entries else entries[key := CacheEntry(token, second + ttl)]
  }

  // ---------------------------------------------------------------- what a history answers

  datatype Event =
    | Get(key: string, at: real)
    | Put(key: string, token: string, expiresAt: real, at: real, dated: real)

  function LastRead(e: Event): real {
    if e.Put? then e.dated else e.at
  }

  ghost predicate Monotone(events: seq<Event>) {
    && (forall i | 0 <= i < |events| :: events[i].at <= LastRead(events[i]))
    && (forall i, j | 0 <= i < j < |events| :: LastRead(events[i]) <= events[j].at)
  }

  function Replay(maxTtl: real, events: seq<Event>): Entries {
    if events == [] then map[]
    else
      var n := |events| - 1;
      var before := Replay(maxTtl, events[..n]);
      match events[n]
      case Get(key, at) => CacheGet(before, key, at).0
      case Put(key, token, expiresAt, at, dated) => CachePut(before, maxTtl, key, token, expiresAt, at, dated)
  }

  predicate Effective(maxTtl: real, e: Event, key: string) {
    e.Put? && e.key == key && Ttl(maxTtl, e.expiresAt, e.at) > 0.0
  }

  function Deadline(maxTtl: real, e: Event): real
    requires e.Put?
  {
    e.dated + Ttl(maxTtl, e.expiresAt, e.at)
  }

  /** The last put for this key that stored something. */
  function LastPut(maxTtl: real, events: seq<Event>, key: string): (r: Option<Event>)
    ensures r.Some? ==> r.value in events && Effective(maxTtl, r.value, key)
  {
    if events == [] then None
    else
      var n := |events| - 1;
      assert events == events[..n] + [events[n]];
      if Effective(maxTtl, events[n], key) then Some(events[n]) else LastPut(maxTtl, events[..n], key)
  }

  /** The answer by history alone, as if nothing were ever dropped. */
  function Answer(maxTtl: real, events: seq<Event>, key: string, now: real): Option<string> {
    match LastPut(maxTtl, events, key)
    case None => None
    case Some(put) => if now < Deadline(maxTtl, put) then Some(put.token) else None
  }

  /** The entry for a key is its last effective put, or is gone because that put has run out. */
  ghost predicate Faithful(maxTtl: real, entries: Entries, last: Option<Event>, key: string, now: real)
    requires last.Some? ==> last.value.Put?
  {
    if key in entries then last.Some? && entries[key] == CacheEntry(last.value.token, Deadline(maxTtl, last.value))
    else last.None? || Deadline(maxTtl, last.value) <= now
  }

  lemma GetStaysFaithful(maxTtl: real, entries: Entries, last: Option<Event>, key: string, read: string,
                         at: real, now: real)
    requires last.Some? ==> last.value.Put?
    requires Faithful(maxTtl, entries, last, key, at) && at <= now
    ensures Faithful(maxTtl, CacheGet(entries, read, at).0, last, key, now)
  {}

  lemma PutStaysFaithful(maxTtl: real, entries: Entries, last: Option<Event>, key: string, put: Event, now: real)
    requires last.Some? ==> last.value.Put?
    requires put.Put? && Faithful(maxTtl, entries, last, key, put.at) && put.at <= now
    ensures Faithful(maxTtl, CachePut(entries, maxTtl, put.key, put.token, put.expiresAt, put.at, put.dated),
                     if Effective(maxTtl, put, key) then Some(put) else last, key, now)
  {}

  lemma MonotonePrefix(events: seq<Event>)
    requires Monotone(events) && events != []
    ensures var n := |events| - 1;
            Monotone(events[..n]) && forall i | 0 <= i < n :: LastRead(events[..n][i]) <= events[n].at
  {}

  lemma {:induction false} ReplayIsFaithful(maxTtl: real, events: seq<Event>, key: string, now: real)
    requires Monotone(events) && forall i | 0 <= i < |events| :: LastRead(events[i]) <= now
    ensures Faithful(maxTtl, Replay(maxTtl, events), LastPut(maxTtl, events, key), key, now)
  {
    if events != [] {
      var n := |events| - 1;
      var e := events[n];
      var before, last := Replay(maxTtl, events[..n]), LastPut(maxTtl, events[..n], key);
      MonotonePrefix(events);
      ReplayIsFaithful(maxTtl, events[..n], key, e.at);
      assert e.at <= LastRead(e) <= now;
      if e.Get? {
        GetStaysFaithful(maxTtl, before, last, key, e.key, e.at, now);
      } else {
        PutStaysFaithful(maxTtl, before, last, key, e, now);
      }
    }
  }

  /** While the clock runs forward, dropping entries is invisible: every get answers by history alone. */
  lemma GetAnswersByHistory(maxTtl: real, events: seq<Event>, key: string, now: real)
    requires Monotone(events) && forall i | 0 <= i < |events| :: LastRead(events[i]) <= now
    ensures CacheGet(Replay(maxTtl, events), key, now).1 == Answer(maxTtl, events, key, now)
  {
    ReplayIsFaithful(maxTtl, events, key, now);
  }

  /**
   What a get returns was put for this key, last; its maximal lifetime has not elapsed; and it is
   still valid by the issuer's clock if that put's two clock reads were within the margin.
  */
  lemma AnswersAreFresh(maxTtl: real, events: seq<Event>, key: string, now: real)
    requires Monotone(events) && forall i | 0 <= i < |events| :: LastRead(events[i]) <= now
    requires CacheGet(Replay(maxTtl, events), key, now).1.Some?
    ensures var put := LastPut(maxTtl, events, key);
            && put.Some? && put.value in events && put.value.key == key
            && CacheGet(Replay(maxTtl, events), key, now).1 == Some(put.value.token)
            && now < put.value.dated + maxTtl
            && (put.value.dated - put.value.at <= MARGIN ==> now < put.value.expiresAt)
  {
    GetAnswersByHistory(maxTtl, events, key, now);
  }

  /**
   The margin is exact: what a put stores is never answered past the issuer's expiry iff its two
   clock reads differ by at most five seconds, or by at most what the maximal lifetime leaves over.
  */
  lemma MarginIsExact(maxTtl: real, entries: Entries, put: Event)
    requires put.Put? && Effective(maxTtl, put, put.key)
    ensures var after := CachePut(entries, maxTtl, put.key, put.token, put.expiresAt, put.at, put.dated);
            (forall now | put.dated <= now && put.expiresAt <= now :: CacheGet(after, put.key, now).1 == None)
            <==> put.dated - put.at <= Max(MARGIN, put.expiresAt - put.at - maxTtl)
  {
    var after := CachePut(entries, maxTtl, put.key, put.token, put.expiresAt, put.at, put.dated);
    var late := Max(put.dated, put.expiresAt);
    assert CacheGet(after, put.key, late).1 == None <==> Deadline(maxTtl, put) <= late;
  }

  // ---------------------------------------------------------------- keys

  const NUL := "\0"

  /** The text whose hash is the cache key. */
  function Material(source: string, serverId: string, scopes: seq<string>): string {
    source + NUL + serverId + NUL + Text.Join(",", scopes)
  }

  function CacheKey(sha256: string -> string, source: string, serverId: string, scopes: seq<string>): string {
    sha256(Material(source, serverId, scopes))
  }

  /** Neither token nor server id holds a NUL, no scope holds a comma, and there is a scope. */
  predicate KeyParts(source: string, serverId: string, scopes: seq<string>) {
    '\0' !in source && '\0' !in serverId && scopes != [] && forall scope | scope in scopes :: ',' !in scope
  }

  lemma FirstNulIsUnique(a: string, b: string, x: string, y: string)
    requires '\0' !in a && '\0' !in b && a + NUL + x == b + NUL + y
    ensures a == b && x == y
  {
    var s := a + NUL + x;
    assert s == b + NUL + y;
    assert forall i | 0 <= i < |a| :: s[i] == a[i] && a[i] in a;
    assert forall i | 0 <= i < |b| :: s[i] == b[i] && b[i] in b;
    assert s[|a|] == '\0' && s[|b|] == '\0';
    assert |a| == |b|;
    assert a == s[..|a|] && b == s[..|b|];
    assert x == s[|a| + 1..] && y == s[|b| + 1..];
  }

  /** Whatever the scopes hold, the material determines the token, the server and the joined scopes. */
  lemma MaterialIdentifies(source: string, serverId: string, scopes: seq<string>,
                           source': string, serverId': string, scopes': seq<string>)
    requires '\0' !in source && '\0' !in source' && '\0' !in serverId && '\0' !in serverId'
    requires Material(source, serverId, scopes) == Material(source', serverId', scopes')
    ensures source == source' && serverId == serverId' && Text.Join(",", scopes) == Text.Join(",", scopes')
  {
    var rest, rest' := serverId + NUL + Text.Join(",", scopes), serverId' + NUL + Text.Join(",", scopes');
    assert Material(source, serverId, scopes) == source + NUL + rest;
    assert Material(source', serverId', scopes') == source' + NUL + rest';
    FirstNulIsUnique(source, source', rest, rest');
    FirstNulIsUnique(serverId, serverId', Text.Join(",", scopes), Text.Join(",", scopes'));
  }

  /** Different tokens, servers or scope lists have different key material. */
  lemma MaterialIsInjective(source: string, serverId: string, scopes: seq<string>,
                            source': string, serverId': string, scopes': seq<string>)
    requires KeyParts(source, serverId, scopes) && KeyParts(source', serverId', scopes')
    requires Material(source, serverId, scopes) == Material(source', serverId', scopes')
    ensures source == source' && serverId == serverId' && scopes == scopes'
  {
    MaterialIdentifies(source, serverId, scopes, source', serverId', scopes');
    assert "," == [','];
    Text.SplitUndoesJoin(scopes, ',');
    Text.SplitUndoesJoin(scopes', ',');
  }

  /** Without a scope the material would be that of one empty scope. */
  lemma EmptyScopeListCollides(source: string, serverId: string)
    ensures Material(source, serverId, []) == Material(source, serverId, [""])
  {}

  // ---------------------------------------------------------------- the cache object

  class TokenCache {
    const maxTtl: real
    const sha256: string -> string
    var entries: Entries

    constructor (maxTtl: real, sha256: string -> string)
      ensures this.maxTtl == maxTtl && this.sha256 == sha256 && entries == map[]
    {
      this.maxTtl, this.sha256 := maxTtl, sha256;
      entries := map[];
    }

    /** `now` is the clock read that the lookup makes. */
    method Get(source: string, serverId: string, scopes: seq<string>, now: real) returns (token: Option<string>)
      modifies this
      ensures (entries, token) == CacheGet(old(entries), CacheKey(sha256, source, serverId, scopes), now)
    {
      var key := CacheKey(sha256, source, serverId, scopes);
      if key !in entries || entries[key].expiresAt <= now {
        entries := entries - {key};
        return None;
      }
      token := Some(entries[key].token);
    }

    /** `first` and `second` are the two clock reads. */
    method Put(source: string, serverId: string, scopes: seq<string>, token: string, expiresAt: real,
               first: real, second: real)
      modifies this
      ensures entries == CachePut(old(entries), maxTtl, CacheKey(sha256, source, serverId, scopes), token, expiresAt,
                                  first, second)
    {
      var ttl := Min(maxTtl, Max(0.0, expiresAt - first - MARGIN));
      if ttl <= 0.0 {
        return;
      }
      entries := entries[CacheKey(sha256, source, serverId, scopes) := CacheEntry(token, second + ttl)];
    }
  }
}
