# Authorization core of go-auth-api, modelled in Dafny

This project models the authentication and authorization core of a Go API service built on gin, gorm, Redis and golang-jwt:

- **Token issuance** (`jwt.dfy`, module `Jwt`). `GenerateToken` builds a claims record that expires 24 hours after issue. Signing and parsing are an abstract codec whose laws are stated once, in `Sound`.
- **The inbound gate chain** (`middleware.dfy`, module `Middleware`):
  - `AuthMiddleware` strips the bearer prefix, parses the token and fills the request context.
  - `AuthorizeRole` checks that the context's role equals the required role.
  - `HasPermission` checks the permission slugs of the user's role, loaded from the database.
  - `RequirePermission` checks the slug list held in the context.
  - `ValidateSecurityVersion` is the cache-aside session check. It is a pure decision over the Redis keyspace and the user table, and returns the outcome together with the cache it leaves behind.
- **The user service** (`service.dfy`, module `Service`). `Register`, `Login`, and `UpdateUserRole` (a role change that rotates the security version and deletes the cached one). The database tables and the Redis keyspace are objects that these methods update in place.
- **The outbound token refresher** (`client.dfy`, module `External`). `TokenTransport` holds `token` and `expiry` and refreshes them when they are missing or near expiry. `refresh` makes up to three attempts with 1/2/4-second backoff. The auth server's answers are an oracle. Time is whole seconds, and a ghost log records the sleeps, the POSTs and the forwarded requests.

The shared records (`User`, `Role`, `Permission`) and the table lookups are in `models.dfy`. Tables are sequences of rows, and a lookup returns the first matching row. A UUID is represented by its canonical text form, so the cache key is `"user_ver:" + id`.

Every gate returns an `Outcome`:
- `Next`: the next handler runs.
- `Abort(status, error)`: the request ends with that status and JSON error.
- `Panic`: a failed `MustGet` or type assertion, which gin's recovery turns into a 500.

Oracles and parameters stand for I/O:
- bcrypt is `hashPassword` and `checkPassword`.
- `uuid.New()` and the column default are `newVersion`, `newId` and `defaultVersion`.
- Database write failures are `updateError` and `insertError`.
- Redis availability is `redisUp`.
- The auth server's answers are `server(i)`.
- The wrapped transport is `underlying`.
- The secret from `JWT_SECRET` is `secret`.
- The clock is `now`.

## Model

| member | source | states |
|---|---|---|
| `Models.FindUser` | internal/auth/middleware.go:150-152 | the row found has the requested id; nothing is found iff no row has it |
| `Models.FindByUsername` | internal/service/user_service.go:51-54 | the row found has the requested username; nothing is found iff no row has it |
| `Models.RoleOf` | internal/service/user_service.go:51 | preloading Role gives the role row with the user's role_id, or the zero role (empty name, no permissions) when there is none |
| `Models.SlugsOf` | internal/service/user_service.go:60-64 | the slug list has the permissions' length and order: the i-th slug is the i-th permission's |
| `Models.UpdateRows` | internal/service/user_service.go:88-92 | the one-statement update keeps the table's length and order; a row with the target id gets the new role_id and security_version and keeps every other field, and every other row is unchanged |
| `Models.UpdatedUserFound` | internal/service/user_service.go:88-92 | after the one-statement update, the target user is found with the new role_id and the new security_version, and with every other field as before |
| `Models.OtherUsersUntouched` | internal/service/user_service.go:88-92 | the update leaves every other user's row as it was |
| `Models.AppendKeepsLookup` | internal/service/user_service.go:27-32 | inserting a row with an unused id leaves every earlier id lookup unchanged and makes the new id find the new row |
| `Models.AppendedUsernameFound` | internal/service/user_service.go:27-32 | a row inserted with an unused username is what a lookup by that username finds |
| `Jwt.GenerateClaims` | internal/auth/jwt.go:19-27 | the claims carry the given uid, role and permissions unchanged; IssuedAt = now; ExpiresAt = now + 24h, so expiry is strictly after issue; SecurityVersion stays the zero UUID |
| `Jwt.VersionedClaims` | internal/auth/jwt.go:14-27 | the corrected claims are GenerateToken's claims with the user's security version stamped in, and still expire after they are issued |
| `Jwt.GenerateToken` | internal/auth/jwt.go:18-31 | a token it returns parses with the same secret, at issue time, to exactly GenerateClaims' payload, and is refused as expired 24 hours later |
| `Jwt.GeneratedTokenParses` | internal/auth/jwt.go:29-30 | a signed generated token parses with the same secret at any time before its expiry back to its uid, role, permissions and the zero version |
| `Jwt.GeneratedTokenExpires` | internal/auth/jwt.go:23-30 | from 24 hours after issue on, parsing the token fails with Expired |
| `Middleware.TrimPrefix` | internal/auth/middleware.go:18-19 | the token string is the header minus one leading "Bearer " when the header starts with it, and the header unchanged otherwise |
| `Middleware.TrimBearer` | internal/auth/middleware.go:19 | exactly one prefix is removed: "Bearer t" gives t, and "Bearer Bearer t" gives "Bearer t" |
| `Middleware.Authenticate` | internal/auth/middleware.go:18-29 | claims it accepts are unexpired at the request's time, and are exactly what the holder of the secret signed into the token the header carries; this rests on the one-encoding codec assumption admitted under "## Left out" |
| `Middleware.WithIdentity` | internal/auth/middleware.go:31-33 | after authentication the context holds user_id, user_role and user_permissions equal to the claims' UserID, Role and Permissions; every other key is unchanged |
| `Middleware.AuthMiddleware` | internal/auth/middleware.go:16-36 | a parse failure aborts with 401 "Unauthorized" and sets no key; a successful parse sets exactly the three identity keys from the claims and goes on |
| `Middleware.IssuedTokenAuthenticates` | internal/auth/middleware.go:18-33 | a GenerateToken token sent as "Bearer <token>" before expiry authenticates and puts exactly its uid, role and permissions in a fresh context |
| `Middleware.ForeignOrExpiredTokenRejected` | internal/auth/middleware.go:21-29 | a token signed with another secret, or presented at or after its expiry, fails authentication |
| `Middleware.MissingOrForgedTokenRejected` | internal/auth/middleware.go:18-29 | a missing header, a bare "Bearer " and a token never signed with the secret all fail authentication |
| `Middleware.AuthorizeRole` | internal/auth/middleware.go:38-47 | the request goes on iff the context holds user_role equal to the required role; otherwise, including when the role is missing, it aborts with 403 "Access denied" |
| `Middleware.AuthorizeRoleAfterAuthentication` | internal/auth/middleware.go:38-47 | behind AuthMiddleware, the role gate passes exactly the tokens whose role claim is the required role |
| `Middleware.LoadUser` | internal/auth/middleware.go:52-61 | the user is loaded by the context's user_id; a missing user_id, or a user_id with no row, loads nothing |
| `Middleware.HasPermission` | internal/auth/middleware.go:49-79 | a failed user load aborts with 403 "User role not found"; otherwise the request goes on iff some permission of the user's role has the required slug, and else aborts with 403 "Missing required permission: " + slug |
| `Middleware.RequirePermission` | internal/auth/middleware.go:81-106 | an absent key aborts with 403 "No permissions found"; otherwise the request goes on iff the required slug is an element of the context's list (so an empty list never passes), and else aborts with 403 "Missing permission: " + slug; a value of another type panics |
| `Middleware.CacheKey` | internal/auth/middleware.go:134 | the key is the "user_ver:" namespace followed by the user's id, which can be read back from it; user_service.go:98 builds the same key |
| `Middleware.CacheKeyInjective` | internal/auth/middleware.go:134 | distinct users have distinct cache keys |
| `Middleware.ValidateSecurityVersion` | internal/auth/middleware.go:131-164 | on a hit, the request goes on iff the cached value equals the token's version, else aborts with 401 "Session revoked", and neither the store nor the cache is touched; on a miss or a cache error, the request goes on iff the stored version equals the token's version, else aborts with 401 "Invalid session" with the cache untouched; a match writes the stored version, set at the request's time with a 24h TTL; every path that goes on has matched a cached or a stored version |
| `Middleware.ValidateSecurityVersionFromContext` | internal/auth/middleware.go:133 | as written, the check panics unless the context holds "claims" as a claims value, and otherwise decides on those claims |
| `Middleware.ClaimsKeyNeverSet` | internal/auth/middleware.go:31-33 | on the context AuthMiddleware leaves, the check as written panics for every token |
| `Middleware.ValidateAgreesWithStore` | internal/auth/middleware.go:136-157 | while every cached version equals its user's stored version, the cache never changes a decision: a request goes on iff its token carries the stored version |
| `Middleware.ValidatePreservesConsistency` | internal/auth/middleware.go:159-160 | repopulation writes only confirmed stored versions, so the check keeps the cache consistent with the store |
| `Middleware.ValidateIdempotent` | internal/auth/middleware.go:139-162 | running the check again on the cache it left gives the same decision and writes nothing |
| `Middleware.RepopulatedHitSkipsStore` | internal/auth/middleware.go:139-147 | after a miss that repopulated the cache, the same token goes on through a hit until the entry expires, whatever the store then holds |
| `Middleware.RepopulatedEntryExpires` | internal/auth/middleware.go:159-160 | an entry the check repopulates at time t is served exactly until t + 24h |
| `Service.NewUser` | internal/service/user_service.go:27-31 | the inserted row has the request's username and email, the hash in place of the password, the drawn id and default version, role_id 0 and is_admin false |
| `Service.Register` | internal/service/user_service.go:21-33 | a hashing error is returned and no user is created; an insert error is returned and nothing is created; otherwise exactly the new row is appended and nil is returned |
| `Service.RegisteredUserFound` | internal/service/user_service.go:27-32 | with an unused username and id, the new row is what login by that username and lookup by that id find, and a consistent cache stays consistent |
| `Service.Login` | internal/service/user_service.go:48-67 | an unknown username and a wrong password both give the same "invalid credentials" error; otherwise the result is GenerateToken on exactly the user's id, the role's name and the role's slug list |
| `Service.UpdateUserRole` | internal/service/user_service.go:83-103 | if the single update fails, its error is returned and neither the table nor the cache changes; otherwise role_id and the fresh security_version are written together, the user's cache key is deleted when Redis is reachable (the result is ignored), and nil is returned |
| `Service.RoleChangeRevokes` | internal/service/user_service.go:83-102 | after a role change whose delete went through, a request passes the session check iff its token carries the fresh version, so a token with the previous version is refused with "Invalid session" on the very next request |
| `Service.RoleChangePreservesConsistency` | internal/service/user_service.go:96-99 | a role change with a successful delete keeps the cache consistent with the store |
| `Service.FailedDeleteWaitsForEviction` | internal/service/user_service.go:99 | if the delete did not happen, a token with the previous version still passes on a cache hit for as long as the 24h entry lives, and is refused from the moment it expires, so 24 hours after it was set is the ceiling |
| `Service.IssuedTokenFailsSessionCheck` | internal/service/user_service.go:66 | as written, a login token carries the zero version, so for a user whose stored version is not the zero UUID it never passes the session check while the cache is consistent |
| `Service.VersionedTokenLifecycle` | internal/service/user_service.go:66 | a login token stamped with the stored version passes the session check until the role changes, and is refused on the first request after the change |
| `Service.DeleteInsideTransactionRace` | internal/service/user_service.go:84-102 | with the delete before the commit, one concurrent request with the old token between the two repopulates the old version, and the old token passes again after the role change |
| `Service.DeleteAfterCommitRevokes` | internal/service/user_service.go:84-102 | with the delete after the commit, requests before or after the commit cannot bring the old version back: the next old-version request is refused |
| `Service.SeedFixtureGrants` | internal/database/seed.go:9-35 | with the roles the seeder defines, FIN_VIEW is granted to Finance and ICT and not to HR, ICT is granted all three slugs, and a Finance login carries exactly ["FIN_VIEW"]; the order of ICT's list is the fixture's choice |
| `External.NeedsRefresh` | internal/external/client.go:23 | a token used without a refresh is present and still has at least 30 seconds before its expiry |
| `External.RefreshMargin` | internal/external/client.go:23 | a present token is used exactly 30 seconds before expiry and refreshed one second later |
| `External.NeedsRefreshMonotonic` | internal/external/client.go:23 | once a token needs a refresh it keeps needing one as time passes |
| `External.Delay` | internal/external/client.go:58 | the sleep after attempt i is one second longer than all earlier sleeps together, which makes it 1 << i |
| `External.BackoffSchedule` | internal/external/client.go:58 | the sleeps after three failed attempts are 1, 2 and 4 seconds, 7 in all |
| `External.Run` | internal/external/client.go:42-60 | the retry loop ends either at an attempt among the three, or exhausted |
| `External.RefreshRun` | internal/external/client.go:37-61 | a refresh that stores a token took it from an accepted attempt (no transport error, status 200), with expiry = start + the sleeps so far + expires_in; otherwise it returns the third attempt's error |
| `External.RunCharacterised` | internal/external/client.go:42-60 | from any attempt on, the loop succeeds iff a remaining attempt is accepted (no transport error and status 200); it stops at the first one, stores its access_token, and sets its expiry from the clock after the sleeps so far; otherwise it returns the last attempt's transport error |
| `External.RefreshCharacterised` | internal/external/client.go:42-60 | refresh succeeds iff one of at most three attempts is accepted; it takes the first, stores token = access_token and expiry = now + expires_in; otherwise it returns the third attempt's transport error |
| `External.StatusFailuresReturnNil` | internal/external/client.go:57-60 | three non-200 answers end the refresh with a nil error |
| `External.StrictRun` | internal/external/client.go:42-60 | with the correction, the loop fails only when no remaining attempt was accepted, and then always with an error once an attempt has been made |
| `External.StrictRunReportsFailure` | internal/external/client.go:57-60 | with the correction, refresh reports an error exactly when no attempt was accepted, and that error is the third attempt's |
| `External.WithBearer` | internal/external/client.go:31 | the forwarded request is the caller's with the Authorization header set to "Bearer " + token; method, URL and every other header are unchanged |
| `External.TokenTransport.constructor` | internal/external/client.go:12-19 | a new transport has no token and a zero expiry |
| `External.TokenTransport.Refresh` | internal/external/client.go:37-61 | on success, token and expiry are written together from the accepted attempt, and nil is returned after one POST per attempt and a sleep after each failure; on exhaustion, token and expiry are unchanged and the last transport error is returned after three POSTs and sleeps of 1, 2 and 4 seconds |
| `External.TokenTransport.RoundTrip` | internal/external/client.go:21-35 | a refresh runs iff the token is empty or now + 30s is after expiry, and then it makes one POST per attempt up to the accepted one, or three; a refresh error is returned and the wrapped transport is not called; otherwise the request with "Authorization: Bearer " + token is handed to the wrapped transport exactly once and its result returned |

## Left out

- Concurrency: the `sync.RWMutex` in `TokenTransport` is not modelled. `refresh` does not re-check expiry after taking the write lock, so racing callers can each refresh in turn. Concurrent requests appear only in the explicit interleavings of the race lemmas.
- The race model treats each request's cache read, store read and repopulation as one atomic step. With the delete after the commit, a request that reads the old row before the commit and writes the cache after the delete can still cache the old version. That window is narrower and is not modelled.
- HMAC-SHA256 signing and golang-jwt parsing are an abstract codec, and `Sound` states the laws the model relies on. Claims are compared whole, and time is whole seconds.
- Middleware.Authenticate: the codec assumes one token string per pair of claims and secret, and that only those strings parse. The source accepts more. Its key function (internal/auth/middleware.go:22-24) hands back the secret without checking the signing method, so HS384 and HS512 tokens made with the same secret parse too. So does any other encoding of a payload signed with the secret: another key order, extra registered claims, or no `exp`. The ensures of `Authenticate` ("accepted claims are what `sign` makes into the carried token") and the third ensures of `Middleware.MissingOrForgedTokenRejected` hold only under that assumption. What survives for the source is that a string no holder of the secret produced is refused.
- bcrypt hashing and comparison are function parameters.
- Postgres: a failed read counts as "no row", because the code treats every read error alike. Update and insert failures are oracles. Unique and foreign-key checks on insert are not modelled, and neither is a failed commit.
- Redis: one availability flag per request covers Get, Set and Del. Each entry records when it was set and its TTL. Expiry is the explicit `Evict(cache, now)` step: the session check is given the keyspace as Redis serves it at the request's time.
- The clock and the sleeps are modelled: time is whole seconds, and each sleep is logged and moves the clock by its length. Real sleeping is left out, and HTTP latency counts as zero. The HTTP exchange, form encoding, basic auth and JSON decoding are left out. A 200 answer carries its decoded fields, or zero values when the body does not decode. Response bodies left open on non-200 answers are not modelled.
- `expires_in` is an unbounded integer, so the overflow of `time.Duration(expires_in) * time.Second` is not modelled.
- Router wiring (`cmd/api/main.go`) is left out. It installs only `AuthMiddleware` and `AuthorizeRole("admin")`; `HasPermission` and `ValidateSecurityVersion` are never installed.
- HTTP handlers, migrations and the Redis client setup are left out. `SeedRolesAndPermissions` is never called (`cmd/api/main.go` runs only `InitDB` and `SeedSuperuser`); its roles appear only as the fixture in `SeedFixtureGrants`. In the program, ICT's permission list comes from a `slug IN ?` query and a preload with no ORDER BY, so its order is not fixed; the fixture lists it in the seeder's literal order.
- External.WithBearer: `RoundTrip` sets the header on the caller's own `*http.Request`, changing its argument in place. The model builds a new request value and leaves the caller's untouched, so it does not capture that aliasing.
- Middleware.LoadUser: a `user_id` stored with a type other than UUID is treated as "no user". The source would run the query with that value. Only `AuthMiddleware` sets the key, and it always stores a UUID.
- Properties of the code that the model keeps as they are:
  - A role's permissions and a token's permission claim are lists that keep order and duplicates.
  - Tokens carry no security version (finding 1).
  - Three non-200 answers do not make `refresh` fail (finding 3).
  - The cache is deleted before the commit (finding 4).

## Findings

| source | as written | input that shows it | evidently intended | confidence | as-written member | corrected member |
|---|---|---|---|---|---|---|
| internal/auth/jwt.go:19-27 | `GenerateToken` never sets `SecurityVersion`, so every token carries the zero UUID | a user whose stored security_version is a random UUID logs in and then makes a request that passes through `ValidateSecurityVersion` | stamp the claims with the user's stored security version | high, not executed | `Service.IssuedTokenFailsSessionCheck` | `Service.VersionedTokenLifecycle` |
| internal/auth/middleware.go:133 | `MustGet("claims")` reads a key that no gate sets | any request that passes `AuthMiddleware` and then reaches `ValidateSecurityVersion` | pass the claims authenticated upstream into the check | high, not executed | `Middleware.ClaimsKeyNeverSet` | `Middleware.ValidateSecurityVersion` |
| internal/external/client.go:57-60 | after three non-200 answers, `refresh` returns nil and `RoundTrip` sends the old (possibly empty) token | three answers with status 503 | return an error whenever no attempt succeeded | high, not executed | `External.StatusFailuresReturnNil` | `External.StrictRunReportsFailure` |
| internal/service/user_service.go:96-101 | the cache delete runs inside the transaction, before the commit | a request with the old token that arrives between the delete and the commit | delete the cache entry after the commit | medium, not executed | `Service.DeleteInsideTransactionRace` | `Service.DeleteAfterCommitRevokes` |
