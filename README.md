# Request gate and decision logic of dummy-crm-server, in Dafny

dummy-crm-server is a Rust (Rocket) backend that serves customer and article
records. This project models the parts of it that make decisions:

- **The token gate and `/auth`** (`src/main.rs`, module `Gateway`). This covers
  extracting the bearer token from the `Authorization` header and resolving it
  through the identity service (`auth_profile`). The `/auth` handler reads the
  session cache first and calls the identity service only on a miss. It
  refuses `user_id` 0 and writes every other profile through to the cache.
  The model also covers the guard that every data route repeats, and the id
  checks of the article create and update routes.
- **The session cache** (`src/sesion.rs`, module `Session`). Redis is modelled
  as a key space. The key scheme is `"session-token:" + ":" + token`. A write
  is a SET followed by an EXPIRE of 120 seconds; when the EXPIRE fails, the
  key stays with no lifetime.
- **The corp-service client** (`src/corpservice.rs`, module `CorpService`). It
  first gets a client-credentials access token (section 4.4 of RFC 6749), then
  looks the person up at `<url>/person/<id>`. A 200 reply is the record. A 404
  reply means no such person. Any other reply is an error.
- **The ticketing client** (`src/issueservice.rs`, module `IssueService`). It
  checks its configuration and ids before sending anything, then reads the
  `issue_id` of the reply back as decimal text.
- **The issue-request store** (`src/issuerequest.rs`, module `IssueRequests`).
  The `issue_request` table and its three link tables are fields of a class,
  with the key and foreign-key constraints of their DDL
  (`src/postgresini.rs`). Inserts are methods that change the tables. The two
  queries are methods that return the linked requests, newest first.

Shared vocabulary sits in `Basics`: `Option`, `Result`, the `i32`/`i64`
widths, an abstract JSON value and the handlers' error statuses. `Decimal`
holds Rust's decimal rendering of integers, with the parser that shows the
rendering loses nothing.

Collaborators the core cannot see are inputs:

- the identity, token, person and ticketing services' replies
  (`IdentityReply`, `HttpReply`, `IssueReply`);
- whether each Redis command succeeds (`RedisHealth`, and the flags of
  `SessionStore.Get`/`Set`);
- the clock (`now`);
- the environment settings (`Option<string>`);
- the ids present in the article, customer and order tables.

The `/auth` handler reports whether it asked the identity service, so the
cache-aside behaviour can be stated. The data routes always ask it.

Facts about the code that shape the model:

- `auth_profile` turns the identity service's 401 into 500, like every other
  failure (src/main.rs:168-188).
- The data routes never consult the session cache. Each of them calls the
  identity service itself (src/main.rs:261-267).
- The code has no role-based ("admin") authorization, no profile aggregation
  and no issue-creation workflow.
- `issue_service_post` accepts a returned ticket id of 0. It makes no non-zero
  check (src/issueservice.rs:49-53).

## Model

| member | source | states |
|---|---|---|
| `Decimal.RenderRoundTrip` | src/issueservice.rs:53 | reading back the decimal text of any integer gives that integer |
| `Decimal.RenderCanonical` | src/issueservice.rs:53 | the decimal text is canonical: a '-' only for negative numbers, then digits with no leading zero, and "0" is the only text of zero |
| `Decimal.RenderInjective` | src/corpservice.rs:101 | two different integers never have the same decimal text |
| `Session.SessionStore.Get` | src/sesion.rs:16-29 | a backend failure is an error, never "no session"; otherwise the result is the profile under the token's key if that key exists and has not expired, and nothing otherwise |
| `Session.SessionStore.Set` | src/sesion.rs:30-41 | success exactly when SET and EXPIRE both succeed; a failed SET writes nothing, a failed EXPIRE leaves the profile stored without a lifetime, and a full write stores the profile under the token's key expiring 120 s after `now` |
| `Session.KeyShape` | src/sesion.rs:20 | the key of token `t` is "session-token::" followed by `t` |
| `Session.KeyInjective` | src/sesion.rs:35 | distinct tokens have distinct keys, so get and set of one token address one key |
| `Session.WrittenThenRead` | src/sesion.rs:37-39 | after a completed write, every GET of that token before 120 s have passed returns the written profile |
| `Session.WrittenThenExpired` | src/sesion.rs:39 | from 120 s after the write on, the token reads as absent |
| `Session.WrittenExpiry` | src/sesion.rs:15 | a completed write gives the key an expiry of exactly now + 120 |
| `Session.WrittenFrame` | src/sesion.rs:38-39 | a write, complete or not, leaves every other token's session as it was |
| `Session.WriteRejected` | src/sesion.rs:38 | a failed SET leaves the key space unchanged |
| `Session.WrittenWithoutExpiry` | src/sesion.rs:39 | when SET succeeds and EXPIRE fails, the profile stays readable at every later time |
| `Session.ReadAbsent` | src/sesion.rs:26 | a key that was never written reads as `None`, not as an error |
| `Gateway.ParseBearer` | src/main.rs:113-121 | the result is a token `t` only when the header is exactly "Bearer " + `t`; a missing header or one without that prefix is 401 |
| `Gateway.BearerRoundTrip` | src/main.rs:115-117 | the header "Bearer " + `t` yields exactly `t`, the empty token included |
| `Gateway.AuthProfileOutcome` | src/main.rs:160-189 | success exactly for a 2xx reply whose body parses, and then `Some` of that profile; transport errors, non-2xx replies (401 included) and unparseable bodies are all 500; never `Ok(None)` |
| `Gateway.ProfileGuard` | src/main.rs:261-277 | the guard passes exactly a `Some` profile with non-zero `user_id`, unchanged; an identity error is 500, no profile is 401, `user_id` 0 is 403 |
| `Gateway.GuardOverIdentity` | src/main.rs:261-277 | the route guard passes exactly the resolved profiles with non-zero `user_id`; `user_id` 0 is 403, any identity failure 500, and its 401 branch is never taken |
| `Gateway.PlanRoute` | src/main.rs:256-549 | every data route, once past the token gate: 500 iff the identity call failed, 403 iff the profile has `user_id` 0, 400 iff authenticated with inconsistent article ids, otherwise the store call for that route; never 401 after the gate |
| `Gateway.HandleRoute` | src/main.rs:256-549 | a data route end to end: 401 iff the `Authorization` header is missing or lacks "Bearer "; then 403 iff `user_id` 0, 400 iff authenticated with inconsistent article ids, 500 iff the identity call or the store call failed; the store's value is returned exactly when all checks pass and the store succeeds |
| `Gateway.RefusalIgnoresStore` | src/main.rs:355-362 | a request refused by the token, identity or id checks gets the same status whatever the store would answer |
| `Gateway.CreateArticuloIds` | src/main.rs:349-353 | an authenticated create reaches the store only when body id and URL id are both 0; otherwise 400 |
| `Gateway.UpdateArticuloIds` | src/main.rs:393-397 | an authenticated update reaches the store only when the body id is non-zero and equals the URL id; otherwise 400 |
| `Gateway.IdentityBeforeIds` | src/main.rs:328-344 | an unauthenticated caller gets the identity status, never 400, whatever the ids |
| `Gateway.AuthOutcome` | src/main.rs:196-254 | `/auth` asks the identity service exactly on a healthy cache miss; it answers 401 exactly for an empty token; after a success the token has a live session, and after a success that asked the identity service that session holds the resolved profile, whose `user_id` is non-zero |
| `Gateway.Auth` | src/main.rs:196-254 | the handler's response, whether it asked the identity service, and the new key space are those of `AuthOutcome` on the old key space |
| `Gateway.AuthEmptyToken` | src/main.rs:201-203 | an empty token is 401, with no identity call and no cache change |
| `Gateway.AuthBareBearer` | src/main.rs:201-203 | the header "Bearer " gets through the token gate and is then refused with 401 |
| `Gateway.AuthCacheHit` | src/main.rs:213-224 | a live cached session is success with no identity call and no cache write |
| `Gateway.AuthCacheDown` | src/main.rs:207-218 | an unreachable cache is 500, with no identity call |
| `Gateway.AuthAsksOnlyOnMiss` | src/main.rs:220-226 | the identity service is asked exactly when the cache read succeeded and found no live session |
| `Gateway.AuthIdentityFailure` | src/main.rs:226-232 | on a miss, any identity failure is 500 and nothing is cached |
| `Gateway.AuthZeroUser` | src/main.rs:240-242 | on a miss, a profile with `user_id` 0 is 403 and nothing is cached |
| `Gateway.AuthNoUnauthorizedAfterIdentity` | src/main.rs:234-236 | once the identity service was asked, the answer is never 401 |
| `Gateway.AuthWriteThrough` | src/main.rs:244-253 | on a miss with a non-zero `user_id` and a working cache, the answer is success and the cache returns that profile for the token until 120 s have passed |
| `Gateway.AuthRepeatIsHit` | src/main.rs:220-224 | after a successful call that asked the identity service, a repeat call before expiry succeeds without asking again and without writing, whatever the identity service would say |
| `Gateway.AuthFrame` | src/main.rs:244-249 | `/auth` never changes the session of any other token |
| `Gateway.AuthRefusalWritesNothing` | src/main.rs:234-249 | a failed call changes the cache only in one case: a 500 after SET succeeded and EXPIRE failed |
| `CorpService.PlanTokenRequest` | src/corpservice.rs:16-38 | the token POST is sent only with URL, client id and secret all set, checked in that order, and carries them with the form `grant_type=client_credentials` |
| `CorpService.InterpretTokenReply` | src/corpservice.rs:41-53 | the token is the `access_token` of a 2xx reply whose body parses; anything else is an error |
| `CorpService.UserToken` | src/corpservice.rs:14-54 | a configuration error comes first and stands whatever the reply; success exactly with full configuration and a 2xx parseable reply |
| `CorpService.PersonUrl` | src/corpservice.rs:101 | the lookup URL is the base, then "/person/", then Rust's decimal rendering of the user id, which reads back as it |
| `CorpService.PersonUrlInjective` | src/corpservice.rs:101 | under one base URL, different users get different lookup URLs |
| `CorpService.PlanPersonRequest` | src/corpservice.rs:90-111 | the person GET is planned only after a token was obtained and with the service URL set, and carries the lookup URL and the service token |
| `CorpService.ClassifyPerson` | src/corpservice.rs:114-140 | 200 with a parseable body is `Some(record)`, 200 without is a parse error, 404 is `None`, every other status (other 2xx included) is an error |
| `CorpService.UserDataById` | src/corpservice.rs:86-141 | a token error comes first, then a missing service URL; with both, the lookup is `None` iff 404 and the record iff 200 with a parseable body, and an error otherwise |
| `CorpService.NoLookupWithoutToken` | src/corpservice.rs:90 | when the token cannot be obtained, no lookup is planned and the outcome is the same whatever the person endpoint would answer |
| `IssueService.PlanIssuePost` | src/issueservice.rs:16-25 | a missing URL is refused first, then `project_id` 0, then `tracker_id` 0; only when all pass is the POST built, with the caller's token and the data |
| `IssueService.InterpretIssueReply` | src/issueservice.rs:40-53 | success exactly for a 2xx reply whose JSON has an integer `issue_id`, and the text returned is Rust's rendering of that id and reads back as it; a non-2xx status is an error |
| `IssueService.IssueServicePost` | src/issueservice.rs:12-54 | a refused request fails with the check's error; the whole call succeeds exactly when all checks pass and the reply is 2xx with an integer `issue_id`, returning that id as Rust renders it |
| `IssueService.NoPostOnRejection` | src/issueservice.rs:16-25 | a request refused by the checks fails, and fails the same way whatever the service would reply |
| `IssueService.ZeroIssueIdAccepted` | src/issueservice.rs:49-53 | an `issue_id` of 0 is returned as "0": there is no non-zero check |
| `IssueRequests.IssueRequestStore.Create` | src/issuerequest.rs:88-103 | the new row keeps only the input's `data`, takes the next sequence value as id and `now` as timestamp, and is appended; the id is non-zero and fresh; the link tables are unchanged; an exhausted sequence is an error that writes nothing |
| `IssueRequests.IssueRequestStore.AddLink` | src/issuerequest.rs:105-157 | an existing pair is a unique violation; otherwise a missing issue request or target is a foreign-key violation, and the insert succeeds iff both exist, and adds exactly that pair to that kind's table; other tables and the requests are unchanged |
| `IssueRequests.IssueRequestStore.Query` | src/issuerequest.rs:15-27 | the scan returns the linked rows sorted newest first, as `NewestFirst(Linked(...))`, with ties in table order |
| `IssueRequests.IssueRequestStore.ByArticulo` | src/issuerequest.rs:11-34 | returns a permutation of the issue requests linked to the article, exactly those, each once, newest first |
| `IssueRequests.IssueRequestStore.ByCliente` | src/issuerequest.rs:36-59 | returns a permutation of the issue requests linked to the customer, exactly those, each once, newest first |
| `IssueRequests.IssueRequestStore.QueryFacts` | src/issuerequest.rs:20-27 | the query specification over the current tables is newest first and has exactly the linked rows, without duplicates when the tables are valid |
| `IssueRequests.NewestFirstPermutes` | src/issuerequest.rs:27 | ordering by creation time is a permutation of the selected rows |
| `IssueRequests.NewestFirstIsOrdered` | src/issuerequest.rs:27 | the result is ordered by `fecha_creacion`, newest first |
| `IssueRequests.LinkedMembers` | src/issuerequest.rs:20-26 | a row is selected iff it is in `issue_request` and its id is linked to the target |
| `IssueRequests.QueryProperties` | src/issuerequest.rs:15-27 | on a table whose ids increase, the query result is newest first, without duplicates, a permutation of the linked rows, and has exactly the linked rows |
| `IssueRequests.CreateKeepsQueries` | src/postgresini.rs:143-148 | a new row with a fresh id changes no query result |
| `IssueRequests.LinkKeepsOtherTargets` | src/issuerequest.rs:110-118 | a link for one target leaves the query of every other target unchanged |
| `IssueRequests.LinkShowsInQuery` | src/issuerequest.rs:105-121 | after a row is linked to a target, that target's query returns it |

The link tables are separate fields, and `AddLink` changes only its own
kind's table. So adding an article link never changes a customer query, and
the reverse also holds.

## Left out

- IssueRequests.IssueRequestStore.ByArticulo: rows with equal `fecha_creacion`
  come out in table order. `ORDER BY fecha_creacion DESC` leaves their order
  unspecified, and `CURRENT_TIMESTAMP` is fixed per transaction, so ties can
  occur. The tie order is a choice of the model; order, permutation and
  membership are what the query itself promises.
- IssueRequests.IssueRequestStore.ByCliente: the same tie order as
  `ByArticulo` is a choice of the model.

- Rocket start-up and environment reading (`src/main.rs:38-105`) are left
  out. So are CORS, the 404 catcher, `healthz` and the `authback`
  pass-through of an authorization code. They are I/O without decisions.
- HTTP transport, timeouts, TLS and serde are abstracted. A reply is either
  absent or a status with an already-parsed body. JSON stored in Redis is
  taken to round-trip, so a cache entry holds the profile itself. The
  `unwrap` on decoding a cached profile therefore never fails.
- Redis connection failures are modelled as `Err`. In the source, the
  connection `unwrap` in `src/sesion.rs` panics, and Rocket answers such a
  handler with 500. The `/auth` caller sees the same 500 either way.
- Redis time is whole seconds, and a key is live strictly before its expiry
  instant. Redis's lazy eviction is not modelled: an expired key reads as
  absent.
- Only the first `Authorization` header is modelled. Rocket's lookup of that
  header among all the headers is not part of this model.
- The article and customer store operations (`postgres_create_articulo`,
  `postgres_update_cliente`, `postgres_get_cliente_by_id` and the others) are
  abstract. A route ends in the `StoreCall` it would make.
- `src/issue_request.rs` is an older near-duplicate of `src/issuerequest.rs`
  and is not modelled.
- The schema drop/create and the seed data in `src/postgresini.rs` are not
  modelled. Only the keys and foreign keys of the issue-request tables are.
- Postgres failures other than key and foreign-key violations and an exhausted
  SERIAL sequence are not modelled: connection loss, timeouts, and deletions
  cascading from the target tables.
- The query by order (`pedido`) is commented out in the source and is absent
  here too.
- JSON values (`Json`) are a concrete tree that the core only carries. It
  holds integers but no floats, and an object may repeat or reorder keys,
  which a `serde_json` map and Postgres JSONB normalise away. Equalities
  such as `Create` keeping the input's `data` are stated over this tree,
  not over JSONB's normal form.
- A `/auth` request is modelled as a single instant: one `now` serves the
  cache read and the SET/EXPIRE. In the code the write happens after the
  identity round trip, so the session expires 120 s after that write, a
  little later than `now + 120`.
- Concurrent requests racing on one token are not modelled, and neither is
  cancellation.
