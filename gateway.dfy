/**
 The request gate of the HTTP API (src/main.rs): extracting the bearer token,
 resolving it to a profile through the identity service, the `/auth`
 handler that caches the resolved profile in the session store, and the
 checks every data route runs before it calls the record store.

 The identity service is an oracle: its reply is a parameter, and the
 /auth handler says whether it asked it. The record store behind the data routes
 (articles, customers) is abstract: a route's outcome is either a status or
 the store call it would make.
 */
module Gateway {
  import opened Basics
  import opened Session

  // ---------------------------------------------------------------------------
  // Bearer token extraction (`BearerToken::from_request`)
  // ---------------------------------------------------------------------------

  const BearerPrefix: string := "Bearer "

  /**
   The token carried by the first `Authorization` header, if any. Only a
   header that starts with "Bearer " is accepted; the token is everything
   after those seven characters, and may be empty.
   */
  function ParseBearer(header: Option<string>): (r: Result<string, Status>)
    ensures r.Ok? ==> header == Some(BearerPrefix + r.value)
    ensures r.Err? ==> r.error == Unauthorized
    ensures r.Err? ==> forall t :: header != Some(BearerPrefix + t)
  {
    if header.Some? && |header.value| >= |BearerPrefix| && header.value[..|BearerPrefix|] == BearerPrefix then
      assert header.value == BearerPrefix + header.value[|BearerPrefix|..];
      Ok(header.value[|BearerPrefix|..])
    else
      assert forall t :: (BearerPrefix + t)[..|BearerPrefix|] == BearerPrefix;
      Err(Unauthorized)
  }

  /** Whatever token a client sends after "Bearer " is the token the handler sees. */
  lemma BearerRoundTrip(token: string)
    ensures ParseBearer(Some(BearerPrefix + token)) == Ok(token)
  {
    assert (BearerPrefix + token)[|BearerPrefix|..] == token;
  }

  // ---------------------------------------------------------------------------
  // Identity service (`auth_profile`)
  // ---------------------------------------------------------------------------

  /**
   What the GET to the identity service's profile URL produced: no response
   at all, or a status with the body read as an `AuthProfile` (`None` when
   the body does not parse).
   */
  datatype IdentityReply =
    | IdentityUnreachable
    | IdentityResponse(status: int, profile: Option<AuthProfile>)

  /** The reply carries a profile: a 2xx status whose body parsed. */
  predicate Resolved(reply: IdentityReply) {
    reply.IdentityResponse? && IsSuccess(reply.status) && reply.profile.Some?
  }

  /**
   `auth_profile`: every failure, including a remote 401, becomes 500, and a
   resolved reply becomes `Some(profile)`. It never answers `Ok(None)`.
   */
  function AuthProfileOutcome(reply: IdentityReply): (r: Result<Option<AuthProfile>, Status>)
    ensures r.Ok? <==> Resolved(reply)
    ensures r.Ok? ==> r.value == reply.profile && r.value.Some?
    ensures r.Err? ==> r.error == InternalServerError
  {
    match reply
    case IdentityUnreachable => Err(InternalServerError)
    case IdentityResponse(status, profile) =>
      if IsSuccess(status) then
        if profile.Some? then Ok(Some(profile.value)) else Err(InternalServerError)
      else Err(InternalServerError)
  }

  /** The caller is a real user: the identity service resolved a profile with a non-zero `user_id`. */
  predicate Authenticated(reply: IdentityReply) {
    Resolved(reply) && reply.profile.value.userId != 0
  }

  /**
   The guard every data route repeats after `auth_profile`: an error is 500,
   no profile is 401, a `user_id` of 0 is 403.
   */
  function ProfileGuard(outcome: Result<Option<AuthProfile>, Status>): (r: Result<AuthProfile, Status>)
    ensures r.Ok? <==> outcome.Ok? && outcome.value.Some? && outcome.value.value.userId != 0
    ensures r.Ok? ==> r.value == outcome.value.value
    ensures outcome.Err? ==> r == Err(InternalServerError)
    ensures outcome == Ok(None) ==> r == Err(Unauthorized)
    ensures r == Err(Forbidden) <==> outcome.Ok? && outcome.value.Some? && outcome.value.value.userId == 0
  {
    match outcome
    case Err(_) => Err(InternalServerError)
    case Ok(None) => Err(Unauthorized)
    case Ok(Some(p)) => if p.userId == 0 then Err(Forbidden) else Ok(p)
  }

  /** The guard over the identity call lets exactly the authenticated callers through, and never answers 401. */
  lemma GuardOverIdentity(reply: IdentityReply)
    ensures ProfileGuard(AuthProfileOutcome(reply)).Ok? <==> Authenticated(reply)
    ensures Authenticated(reply) ==> ProfileGuard(AuthProfileOutcome(reply)) == Ok(reply.profile.value)
    ensures ProfileGuard(AuthProfileOutcome(reply)) == Err(Forbidden) <==> Resolved(reply) && !Authenticated(reply)
    ensures ProfileGuard(AuthProfileOutcome(reply)) == Err(InternalServerError) <==> !Resolved(reply)
    ensures ProfileGuard(AuthProfileOutcome(reply)) != Err(Unauthorized)
  {
  }

  // ---------------------------------------------------------------------------
  // Data routes
  // ---------------------------------------------------------------------------

  /** The body of POST/PUT /articulo; only its `id` takes part in the decisions. */
  datatype ArticuloRequest = ArticuloRequest(id: i32, fields: Json)

  /** The body of POST/PUT /profile, passed on to the store untouched. */
  datatype ClienteRequest = ClienteRequest(fields: Json)

  /** The data routes, with their URL parameters and bodies. */
  datatype Route =
    | GetArticulos
    | GetArticulo(id: i32)
    | PostArticulo(articulo: ArticuloRequest, id: i32)
    | PutArticulo(articulo: ArticuloRequest, id: i32)
    | GetProfile(id: i32)
    | GetProfiles
    | PostProfile(cliente: ClienteRequest)
    | PutProfile(cliente: ClienteRequest, userId: i32)

  /** The record-store operation a route ends in. */
  datatype StoreCall =
    | ListArticulos
    | ArticuloById(id: i32)
    | CreateArticulo(articulo: ArticuloRequest)
    | UpdateArticulo(articulo: ArticuloRequest, id: i32)
    | ClienteById(id: i32)
    | ListClientes
    | CreateCliente(cliente: ClienteRequest)
    | UpdateCliente(cliente: ClienteRequest, userId: i32)

  function CallFor(route: Route): StoreCall {
    match route
    case GetArticulos => ListArticulos
    case GetArticulo(id) => ArticuloById(id)
    case PostArticulo(a, id) => CreateArticulo(a)
    case PutArticulo(a, id) => UpdateArticulo(a, id)
    case GetProfile(id) => ClienteById(id)
    case GetProfiles => ListClientes
    case PostProfile(c) => CreateCliente(c)
    case PutProfile(c, userId) => UpdateCliente(c, userId)
  }

  /**
   The id consistency the article routes demand: a create names no id at
   all, an update names the same non-zero id in the body and the URL.
   The other routes check nothing.
   */
  predicate IdsConsistent(route: Route) {
    match route
    case PostArticulo(a, id) => a.id == 0 && id == 0
    case PutArticulo(a, id) => a.id != 0 && id == a.id
    case _ => true
  }

  /**
   A data route up to the store call: the identity guard first, then the id
   checks, then the call itself. A status means the store is not used.
   */
  function PlanRoute(reply: IdentityReply, route: Route): (r: Result<StoreCall, Status>)
    ensures r == Err(InternalServerError) <==> !Resolved(reply)
    ensures r == Err(Forbidden) <==> Resolved(reply) && !Authenticated(reply)
    ensures r == Err(BadRequest) <==> Authenticated(reply) && !IdsConsistent(route)
    ensures r.Ok? <==> Authenticated(reply) && IdsConsistent(route)
    ensures r.Ok? ==> r.value == CallFor(route)
    ensures r != Err(Unauthorized)
  {
    match ProfileGuard(AuthProfileOutcome(reply))
    case Err(s) => Err(s)
    case Ok(_) => if IdsConsistent(route) then Ok(CallFor(route)) else Err(BadRequest)
  }

  /**
   The route's answer once the store has replied: a store failure is 500,
   a store value is returned as is. `stored` is only looked at when the
   plan reached the store.
   */
  function Answer<V>(plan: Result<StoreCall, Status>, stored: Result<V, ()>): Result<V, Status> {
    match plan
    case Err(s) => Err(s)
    case Ok(_) => match stored
      case Ok(v) => Ok(v)
      case Err(_) => Err(InternalServerError)
  }

  /**
   A data route end to end: the bearer-token guard, then the identity guard,
   then the id checks, then the store call, whose failure is 500. `stored`
   is what the store would answer to `CallFor(route)`.
   */
  function HandleRoute<V>(header: Option<string>, reply: IdentityReply, route: Route, stored: Result<V, ()>)
    : (r: Result<V, Status>)
    ensures r == Err(Unauthorized) <==> ParseBearer(header).Err?
    ensures r == Err(Forbidden) <==> ParseBearer(header).Ok? && Resolved(reply) && !Authenticated(reply)
    ensures r == Err(BadRequest) <==> ParseBearer(header).Ok? && Authenticated(reply) && !IdsConsistent(route)
    ensures r == Err(InternalServerError) <==>
      ParseBearer(header).Ok? && (!Resolved(reply) || (Authenticated(reply) && IdsConsistent(route) && stored.Err?))
    ensures r.Ok? <==> ParseBearer(header).Ok? && Authenticated(reply) && IdsConsistent(route) && stored.Ok?
    ensures r.Ok? ==> r.value == stored.value
  {
    match ParseBearer(header)
    case Err(s) => Err(s)
    case Ok(_) => Answer(PlanRoute(reply, route), stored)
  }

  /**
   A request that is refused before the store call gets the same status
   whatever the store would have answered: the store is not consulted.
   */
  lemma RefusalIgnoresStore<V>(header: Option<string>, reply: IdentityReply, route: Route,
                               stored1: Result<V, ()>, stored2: Result<V, ()>)
    requires !(ParseBearer(header).Ok? && Authenticated(reply) && IdsConsistent(route))
    ensures HandleRoute(header, reply, route, stored1) == HandleRoute(header, reply, route, stored2)
  {
  }

  /** An article is created only when both the body and the URL carry id 0; otherwise 400. */
  lemma CreateArticuloIds(reply: IdentityReply, articulo: ArticuloRequest, id: i32)
    requires Authenticated(reply)
    ensures PlanRoute(reply, PostArticulo(articulo, id)) ==
      if articulo.id == 0 && id == 0 then Ok(CreateArticulo(articulo)) else Err(BadRequest)
  {
  }

  /** An article is updated only under a non-zero body id equal to the URL id; otherwise 400. */
  lemma UpdateArticuloIds(reply: IdentityReply, articulo: ArticuloRequest, id: i32)
    requires Authenticated(reply)
    ensures PlanRoute(reply, PutArticulo(articulo, id)) ==
      if articulo.id != 0 && articulo.id == id then Ok(UpdateArticulo(articulo, id)) else Err(BadRequest)
  {
  }

  /** The identity checks take precedence over the id checks: a bad id is only reported to an authenticated caller. */
  lemma IdentityBeforeIds(reply: IdentityReply, route: Route)
    requires !Authenticated(reply)
    ensures PlanRoute(reply, route).Err?
    ensures PlanRoute(reply, route).error != BadRequest
  {
  }

  // ---------------------------------------------------------------------------
  // The /auth handler
  // ---------------------------------------------------------------------------

  /**
   How the Redis backend behaves during one request: whether the client can
   be opened, and whether GET, SET and EXPIRE succeed.
   */
  datatype RedisHealth = RedisHealth(opens: bool, getOk: bool, setOk: bool, expireOk: bool)

  datatype AuthResponse = AuthResponse(status: string)

  /** The success body of /auth. */
  const Success := AuthResponse("success")

  /**
   One run of /auth: the response, whether the identity service was asked,
   and the session keyspace afterwards.
   */
  datatype AuthRun = AuthRun(response: Result<AuthResponse, Status>, askedIdentity: bool, entries: map<string, Entry>)

  /** The /auth handler as a function of the session keyspace, the clock and the two oracles. */
  function AuthOutcome(entries: map<string, Entry>, token: string, now: int,
                       redis: RedisHealth, identity: IdentityReply): (r: AuthRun)
    ensures r.askedIdentity <==> token != [] && redis.opens && redis.getOk && Lookup(entries, token, now).None?
    ensures r.response == Err(Unauthorized) <==> token == []
    ensures r.response.Ok? ==> Lookup(r.entries, token, now).Some?
    ensures r.response.Ok? && r.askedIdentity ==> Authenticated(identity) && Lookup(r.entries, token, now) == identity.profile
  {
    if token == [] then AuthRun(Err(Unauthorized), false, entries)
    else if !redis.opens || !redis.getOk then AuthRun(Err(InternalServerError), false, entries)
    else if Lookup(entries, token, now).Some? then AuthRun(Ok(Success), false, entries)
    else match AuthProfileOutcome(identity)
      case Err(_) => AuthRun(Err(InternalServerError), true, entries)
      case Ok(None) => AuthRun(Err(Unauthorized), true, entries)
      case Ok(Some(p)) =>
        if p.userId == 0 then AuthRun(Err(Forbidden), true, entries)
        else
          var written := Written(entries, token, p, now, redis.setOk, redis.expireOk);
          AuthRun(if redis.setOk && redis.expireOk then Ok(Success) else Err(InternalServerError), true, written)
  }

  /**
   `auth`: reject an empty token, read the session cache, and only on a miss
   ask the identity service, refusing `user_id` 0 and writing any other
   profile through to the cache.
   */
  method Auth(sessions: SessionStore, token: string, now: int, redis: RedisHealth, identity: IdentityReply)
    returns (response: Result<AuthResponse, Status>, askedIdentity: bool)
    modifies sessions
    ensures AuthRun(response, askedIdentity, sessions.entries) ==
            AuthOutcome(old(sessions.entries), token, now, redis, identity)
  {
    askedIdentity := false;
    if token == [] {
      return Err(Unauthorized), false;
    }
    if !redis.opens {
      return Err(InternalServerError), false;
    }
    var cached := sessions.Get(token, now, redis.getOk);
    if cached.Err? {
      return Err(InternalServerError), false;
    }
    if cached.value.Some? {
      return Ok(Success), false;
    }
    askedIdentity := true;
    var fetched := AuthProfileOutcome(identity);
    if fetched.Err? {
      response := Err(InternalServerError);
      return;
    }
    if fetched.value.None? {
      response := Err(Unauthorized);
      return;
    }
    var profile := fetched.value.value;
    if profile.userId == 0 {
      response := Err(Forbidden);
      return;
    }
    var stored := sessions.Set(token, profile, now, redis.setOk, redis.expireOk);
    if stored.Err? {
      response := Err(InternalServerError);
      return;
    }
    response := Ok(Success);
  }

  /** A healthy cache read that finds no live session for the token. */
  predicate Miss(entries: map<string, Entry>, token: string, now: int, redis: RedisHealth) {
    token != [] && redis.opens && redis.getOk && Lookup(entries, token, now).None?
  }

  /** An empty token is refused with 401 before the cache or the identity service is used. */
  lemma AuthEmptyToken(entries: map<string, Entry>, now: int, redis: RedisHealth, identity: IdentityReply)
    ensures AuthOutcome(entries, [], now, redis, identity) == AuthRun(Err(Unauthorized), false, entries)
  {
  }

  /** A header of just "Bearer " passes the token gate and is then refused by /auth with 401. */
  lemma AuthBareBearer(entries: map<string, Entry>, now: int, redis: RedisHealth, identity: IdentityReply)
    ensures ParseBearer(Some("Bearer ")) == Ok([])
    ensures AuthOutcome(entries, ParseBearer(Some("Bearer ")).value, now, redis, identity).response == Err(Unauthorized)
  {
    BearerRoundTrip([]);
    assert BearerPrefix + [] == "Bearer ";
  }

  /** A live cached session answers success without asking the identity service and without writing. */
  lemma AuthCacheHit(entries: map<string, Entry>, token: string, now: int, redis: RedisHealth, identity: IdentityReply)
    requires token != [] && redis.opens && redis.getOk
    requires Lookup(entries, token, now).Some?
    ensures AuthOutcome(entries, token, now, redis, identity) == AuthRun(Ok(Success), false, entries)
  {
  }

  /** A cache that cannot be read is a 500, not a miss: the identity service is not asked. */
  lemma AuthCacheDown(entries: map<string, Entry>, token: string, now: int, redis: RedisHealth, identity: IdentityReply)
    requires token != [] && !(redis.opens && redis.getOk)
    ensures AuthOutcome(entries, token, now, redis, identity) == AuthRun(Err(InternalServerError), false, entries)
  {
  }

  /** Exactly the healthy misses ask the identity service. */
  lemma AuthAsksOnlyOnMiss(entries: map<string, Entry>, token: string, now: int, redis: RedisHealth, identity: IdentityReply)
    ensures AuthOutcome(entries, token, now, redis, identity).askedIdentity <==> Miss(entries, token, now, redis)
  {
  }

  /** On a miss, any identity failure (transport, non-2xx, unparseable body) is 500 and nothing is cached. */
  lemma AuthIdentityFailure(entries: map<string, Entry>, token: string, now: int, redis: RedisHealth, identity: IdentityReply)
    requires Miss(entries, token, now, redis) && !Resolved(identity)
    ensures AuthOutcome(entries, token, now, redis, identity) == AuthRun(Err(InternalServerError), true, entries)
  {
  }

  /** On a miss, a profile with `user_id` 0 is 403 and is not cached. */
  lemma AuthZeroUser(entries: map<string, Entry>, token: string, now: int, redis: RedisHealth, identity: IdentityReply)
    requires Miss(entries, token, now, redis) && Resolved(identity) && identity.profile.value.userId == 0
    ensures AuthOutcome(entries, token, now, redis, identity) == AuthRun(Err(Forbidden), true, entries)
  {
  }

  /** Once the identity service has been asked, the answer is never 401: that branch of the handler is dead. */
  lemma AuthNoUnauthorizedAfterIdentity(entries: map<string, Entry>, token: string, now: int, redis: RedisHealth, identity: IdentityReply)
    requires AuthOutcome(entries, token, now, redis, identity).askedIdentity
    ensures AuthOutcome(entries, token, now, redis, identity).response != Err(Unauthorized)
  {
  }

  /**
   On a miss, an authenticated profile is written through: success, and the
   cache now answers that profile for the token until two minutes have passed.
   */
  lemma AuthWriteThrough(entries: map<string, Entry>, token: string, now: int, redis: RedisHealth,
                         identity: IdentityReply, later: int)
    requires Miss(entries, token, now, redis) && Authenticated(identity)
    requires redis.setOk && redis.expireOk
    requires now <= later < now + SessionTimeSeconds
    ensures var run := AuthOutcome(entries, token, now, redis, identity);
      run.response == Ok(Success) && run.askedIdentity &&
      Lookup(run.entries, token, later) == identity.profile
  {
    WrittenThenRead(entries, token, identity.profile.value, now, later);
  }

  /**
   Cache-aside: after a successful /auth that asked the identity service, a
   repeat call with the same token before the session expires succeeds
   without asking it again and without writing, whatever it would have said.
   */
  lemma AuthRepeatIsHit(entries: map<string, Entry>, token: string, now: int, redis: RedisHealth,
                           identity: IdentityReply, later: int, redis2: RedisHealth, identity2: IdentityReply)
    requires AuthOutcome(entries, token, now, redis, identity).askedIdentity
    requires AuthOutcome(entries, token, now, redis, identity).response.Ok?
    requires now <= later < now + SessionTimeSeconds
    requires redis2.opens && redis2.getOk
    ensures var first := AuthOutcome(entries, token, now, redis, identity);
      AuthOutcome(first.entries, token, later, redis2, identity2) == AuthRun(Ok(Success), false, first.entries)
  {
    AuthAsksOnlyOnMiss(entries, token, now, redis, identity);
    var first := AuthOutcome(entries, token, now, redis, identity);
    assert Authenticated(identity) && redis.setOk && redis.expireOk;
    AuthWriteThrough(entries, token, now, redis, identity, later);
    AuthCacheHit(first.entries, token, later, redis2, identity2);
  }

  /** /auth only ever touches the caller's own session: every other token reads as before. */
  lemma AuthFrame(entries: map<string, Entry>, token: string, now: int, redis: RedisHealth,
                  identity: IdentityReply, other: string, at: int)
    requires other != token
    ensures Lookup(AuthOutcome(entries, token, now, redis, identity).entries, other, at) == Lookup(entries, other, at)
  {
    match AuthProfileOutcome(identity)
    case Err(_) =>
    case Ok(po) =>
      if po.Some? {
        WrittenFrame(entries, token, po.value, now, redis.setOk, redis.expireOk, other, at);
      }
  }

  /** Every refusal (401, 403) leaves the cache as it was; only 500 after a failed EXPIRE leaves a write behind. */
  lemma AuthRefusalWritesNothing(entries: map<string, Entry>, token: string, now: int, redis: RedisHealth, identity: IdentityReply)
    requires AuthOutcome(entries, token, now, redis, identity).response.Err?
    ensures AuthOutcome(entries, token, now, redis, identity).entries != entries ==>
      AuthOutcome(entries, token, now, redis, identity).response == Err(InternalServerError) &&
      redis.setOk && !redis.expireOk
  {
  }
}
