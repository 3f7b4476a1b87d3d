/**
 The session cache kept in Redis (src/sesion.rs): a validated profile stored
 as JSON under a key derived from the bearer token, given a fixed lifetime
 when it is written. The Redis keyspace is the map `entries`; serde's JSON
 round trip is taken as the identity, so an entry holds the profile itself.
 */
module Session {
  import opened Basics

  /** The identity provider's profile (`AuthProfile`). */
  datatype AuthProfile = AuthProfile(id: i32, clientId: string, userId: i32, attributes: map<string, string>)

  /** `SESSION_TOKEN_KEY`. */
  const SessionTokenKey: string := "session-token:"

  /** `SESSION_TIME_SECONDS`: two minutes. */
  const SessionTimeSeconds: int := 60 * 2

  /** The Redis key of a token's session: the prefix, a ':' and the token. */
  function Key(token: string): string {
    SessionTokenKey + ":" + token
  }

  /**
   What Redis holds under a session key: the profile and, once EXPIRE has
   run on it, the instant (in seconds) from which the key no longer exists.
   */
  datatype Entry = Entry(profile: AuthProfile, expiresAt: Option<int>)

  predicate Live(e: Entry, now: int) {
    e.expiresAt.None? || now < e.expiresAt.value
  }

  /** What GET answers for a token at time `now`: absent and expired keys both read as nothing. */
  function Lookup(entries: map<string, Entry>, token: string, now: int): Option<AuthProfile> {
    var k := Key(token);
    if k in entries && Live(entries[k], now) then Some(entries[k].profile) else None
  }

  /**
   The keyspace after the two commands of a session write issued at `now`:
   SET stores the profile (and, as SET does, drops any earlier expiry), then
   EXPIRE gives the key its lifetime. `setOk`/`expireOk` say whether each
   command succeeded; the second is only sent when the first did.
   */
  function Written(entries: map<string, Entry>, token: string, profile: AuthProfile, now: int,
                   setOk: bool, expireOk: bool): map<string, Entry>
  {
    if !setOk then entries
    else if !expireOk then entries[Key(token) := Entry(profile, None)]
    else entries[Key(token) := Entry(profile, Some(now + SessionTimeSeconds))]
  }

  /** A failed Redis round trip (connection or command). */
  datatype RedisError = RedisError

  /** The Redis keyspace as the session functions see it. */
  class SessionStore {
    var entries: map<string, Entry>

    constructor ()
      ensures entries == map[]
    {
      entries := map[];
    }

    /**
     `redis_get_session_by_token`. `backendUp` is whether the connection and
     the GET command succeed; a failure is an error, never "no session".
     */
    method Get(token: string, now: int, backendUp: bool) returns (r: Result<Option<AuthProfile>, RedisError>)
      ensures r.Ok? <==> backendUp
      ensures r.Ok? ==> r.value == Lookup(entries, token, now)
      ensures r.Ok? && r.value.Some? ==> Key(token) in entries && r.value.value == entries[Key(token)].profile
    {
      if !backendUp {
        return Err(RedisError);
      }
      var key := Key(token);
      if key in entries && Live(entries[key], now) {
        r := Ok(Some(entries[key].profile));
      } else {
        r := Ok(None);
      }
    }

    /**
     `redis_set_session_by_token`: SET, then EXPIRE for `SessionTimeSeconds`.
     `setOk` covers the connection and the SET command, `expireOk` the EXPIRE.
     */
    method Set(token: string, profile: AuthProfile, now: int, setOk: bool, expireOk: bool)
      returns (r: Result<(), RedisError>)
      modifies this
      ensures r.Ok? <==> setOk && expireOk
      ensures entries == Written(old(entries), token, profile, now, setOk, expireOk)
    {
      var key := Key(token);
      if !setOk {
        return Err(RedisError);
      }
      entries := entries[key := Entry(profile, None)];
      if !expireOk {
        return Err(RedisError);
      }
      entries := entries[key := entries[key].(expiresAt := Some(now + SessionTimeSeconds))];
      r := Ok(());
    }
  }

  /** Every session key is "session-token::" followed by the token itself. */
  lemma KeyShape(token: string)
    ensures |Key(token)| == 15 + |token|
    ensures Key(token)[..15] == "session-token::"
    ensures Key(token)[15..] == token
  {
  }

  /** Distinct tokens never share a session key. */
  lemma KeyInjective(a: string, b: string)
    requires Key(a) == Key(b)
    ensures a == b
  {
    KeyShape(a);
    KeyShape(b);
  }

  /** A completed write is read back unchanged by every GET before its lifetime ends. */
  lemma WrittenThenRead(entries: map<string, Entry>, token: string, profile: AuthProfile, now: int, later: int)
    requires now <= later < now + SessionTimeSeconds
    ensures Lookup(Written(entries, token, profile, now, true, true), token, later) == Some(profile)
  {
  }

  /** Once the lifetime has run out the session reads as absent, with no stale fallback. */
  lemma WrittenThenExpired(entries: map<string, Entry>, token: string, profile: AuthProfile, now: int, later: int)
    requires later >= now + SessionTimeSeconds
    ensures Lookup(Written(entries, token, profile, now, true, true), token, later) == None
  {
  }

  /** A completed write sets the key's expiry to exactly two minutes after the write. */
  lemma WrittenExpiry(entries: map<string, Entry>, token: string, profile: AuthProfile, now: int)
    ensures var w := Written(entries, token, profile, now, true, true);
      Key(token) in w && w[Key(token)].expiresAt == Some(now + 120)
  {
  }

  /** A write changes only the writer's key: every other key, and so every other token's session, is as before. */
  lemma WrittenFrame(entries: map<string, Entry>, token: string, profile: AuthProfile, now: int,
                     setOk: bool, expireOk: bool, other: string, at: int)
    requires other != token
    ensures var w := Written(entries, token, profile, now, setOk, expireOk);
      Lookup(w, other, at) == Lookup(entries, other, at)
  {
    if Key(other) == Key(token) {
      KeyInjective(other, token);
    }
  }

  /** A failed SET writes nothing. */
  lemma WriteRejected(entries: map<string, Entry>, token: string, profile: AuthProfile, now: int, expireOk: bool)
    ensures Written(entries, token, profile, now, false, expireOk) == entries
  {
  }

  /**
   When SET succeeds but EXPIRE fails the profile stays readable at every
   later instant: the key has no lifetime at all.
   */
  lemma WrittenWithoutExpiry(entries: map<string, Entry>, token: string, profile: AuthProfile, now: int, later: int)
    ensures Lookup(Written(entries, token, profile, now, true, false), token, later) == Some(profile)
  {
  }

  /** GET of a key that was never written reads as absent. */
  lemma ReadAbsent(entries: map<string, Entry>, token: string, now: int)
    requires Key(token) !in entries
    ensures Lookup(entries, token, now) == None
  {
  }
}
