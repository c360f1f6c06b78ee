/**
 * The inbound gate chain (internal/auth/middleware.go): authentication of the
 * bearer token, the role check, the two permission checks and the cache-aside
 * session-version check. A gate's effect on gin's handler chain is its
 * Outcome: Next (the next handler runs), Abort (the request ends with that
 * status and error message) or Panic (a failed MustGet or type assertion).
 */
module Middleware {
  import opened Wrappers
  import opened Models
  import opened Jwt

  /** A value stored under a key of the request context. */
  datatype Value = IdValue(id: Uuid) | TextValue(text: string) | ListValue(items: seq<string>) | ClaimsValue(claims: Claims)

  datatype Outcome = Next | Abort(status: int, error: string) | Panic

  /** The request context a gate sees: the Authorization header (empty when
      absent) and gin's per-request key/value store. */
  class Context {
    const authorization: string
    var keys: map<string, Value>

    constructor (authorization: string)
      ensures this.authorization == authorization && keys == map[]
    {
      this.authorization := authorization;
      keys := map[];
    }
  }

  const BearerPrefix: string := "Bearer "

  /** strings.TrimPrefix: s without one leading copy of prefix, if it has one. */
  function TrimPrefix(s: string, prefix: string): (r: string)
    ensures prefix <= s ==> prefix + r == s
    ensures !(prefix <= s) ==> r == s
  {
    if prefix <= s then s[|prefix|..] else s
  }

  /** Exactly one "Bearer " is removed from a header that carries it. */
  lemma TrimBearer(token: string)
    ensures TrimPrefix(BearerPrefix + token, BearerPrefix) == token
    ensures TrimPrefix(BearerPrefix + BearerPrefix + token, BearerPrefix) == BearerPrefix + token
  {
    assert (BearerPrefix + token)[|BearerPrefix|..] == token;
    assert BearerPrefix <= BearerPrefix + BearerPrefix + token;
    assert (BearerPrefix + BearerPrefix + token)[|BearerPrefix|..] == BearerPrefix + token;
  }

  /** What AuthMiddleware decides for a header: the parsed claims, or the
      parse error. Accepted claims are unexpired, and they are what the
      holder of the secret signed into the token the header carries. */
  function Authenticate(codec: Codec, secret: string, header: string, now: int): (r: Result<Claims, ParseError>)
    ensures Sound(codec) && r.Success? ==>
              now < r.value.expiresAt && codec.sign(r.value, secret) == Success(TrimPrefix(header, BearerPrefix))
  {
    codec.parse(TrimPrefix(header, BearerPrefix), secret, now)
  }

  /** The context keys after AuthMiddleware has accepted the claims. */
  function WithIdentity(keys: map<string, Value>, cl: Claims): (r: map<string, Value>)
    ensures r.Keys == keys.Keys + {"user_id", "user_role", "user_permissions"}
    ensures r["user_id"] == IdValue(cl.userId) && r["user_role"] == TextValue(cl.role)
    ensures r["user_permissions"] == ListValue(cl.permissions)
    ensures forall k :: k in keys && k !in {"user_id", "user_role", "user_permissions"} ==> r[k] == keys[k]
  {
    keys["user_id" := IdValue(cl.userId)]["user_role" := TextValue(cl.role)]["user_permissions" := ListValue(cl.permissions)]
  }

  /** AuthMiddleware: reject with 401 and set nothing when the token does not
      parse; otherwise put its identity, role and permissions in the context
      and go on. */
  method AuthMiddleware(c: Context, codec: Codec, secret: string, now: int) returns (o: Outcome)
    modifies c
    ensures Authenticate(codec, secret, c.authorization, now).Failure? ==>
              o == Abort(401, "Unauthorized") && c.keys == old(c.keys)
    ensures Authenticate(codec, secret, c.authorization, now).Success? ==>
              o == Next && c.keys == WithIdentity(old(c.keys), Authenticate(codec, secret, c.authorization, now).value)
  {
    var tokenStr := TrimPrefix(c.authorization, BearerPrefix);
    var parsed := codec.parse(tokenStr, secret, now);
    if parsed.Failure? {
      return Abort(401, "Unauthorized");
    }
    var claims := parsed.value;
    c.keys := c.keys["user_id" := IdValue(claims.userId)];
    c.keys := c.keys["user_role" := TextValue(claims.role)];
    c.keys := c.keys["user_permissions" := ListValue(claims.permissions)];
    o := Next;
  }

  /** A token GenerateToken issued, sent as "Bearer <token>" before it
      expires, authenticates to exactly the identity it was issued for. */
  lemma IssuedTokenAuthenticates(codec: Codec, secret: string, uid: Uuid, role: string, permissions: seq<string>, issued: int, now: int)
    requires Sound(codec)
    requires GenerateToken(codec, secret, uid, role, permissions, issued).Success?
    requires now < issued + TokenLifetime
    ensures var auth := Authenticate(codec, secret, BearerPrefix + GenerateToken(codec, secret, uid, role, permissions, issued).value, now);
            auth.Success? &&
            WithIdentity(map[], auth.value) ==
              map["user_id" := IdValue(uid), "user_role" := TextValue(role), "user_permissions" := ListValue(permissions)]
  {
    TrimBearer(GenerateToken(codec, secret, uid, role, permissions, issued).value);
  }

  /** A token signed with another secret, or presented after its expiry, is
      rejected. */
  lemma ForeignOrExpiredTokenRejected(codec: Codec, secret: string, other: string, cl: Claims, now: int)
    requires Sound(codec)
    requires codec.sign(cl, other).Success?
    requires other != secret || cl.expiresAt <= now
    ensures Authenticate(codec, secret, BearerPrefix + codec.sign(cl, other).value, now).Failure?
  {
    TrimBearer(codec.sign(cl, other).value);
  }

  /** A missing Authorization header, a bare "Bearer " and a token that was
      never signed with the secret are all rejected. */
  lemma MissingOrForgedTokenRejected(codec: Codec, secret: string, t: string, now: int)
    requires Sound(codec)
    requires forall cl :: codec.sign(cl, secret) != Success(t)
    ensures Authenticate(codec, secret, "", now).Failure?
    ensures Authenticate(codec, secret, BearerPrefix, now).Failure?
    ensures Authenticate(codec, secret, BearerPrefix + t, now).Failure?
  {
    TrimBearer(t);
    TrimBearer("");
    assert BearerPrefix + "" == BearerPrefix;
  }

  /** AuthorizeRole: go on iff the context holds the required role. */
  function AuthorizeRole(keys: map<string, Value>, role: string): (o: Outcome)
    ensures o == Next <==> "user_role" in keys && keys["user_role"] == TextValue(role)
    ensures o != Next ==> o == Abort(403, "Access denied")
  {
    if "user_role" in keys && keys["user_role"] == TextValue(role) then Next else Abort(403, "Access denied")
  }

  /** After authentication, the role gate passes exactly the tokens whose
      role claim is the required role. */
  lemma AuthorizeRoleAfterAuthentication(keys: map<string, Value>, cl: Claims, role: string)
    ensures AuthorizeRole(WithIdentity(keys, cl), role) == Next <==> cl.role == role
  {
  }

  /** The user HasPermission loads: the row whose id is the context's user_id
      (a missing user_id queries for NULL and finds nothing). */
  function LoadUser(keys: map<string, Value>, users: seq<User>): (r: Option<User>)
    ensures r.Some? ==> "user_id" in keys && keys["user_id"].IdValue? && r == FindUser(users, keys["user_id"].id)
    ensures r.None? ==> "user_id" !in keys || !keys["user_id"].IdValue? || FindUser(users, keys["user_id"].id).None?
  {
    if "user_id" in keys && keys["user_id"].IdValue? then FindUser(users, keys["user_id"].id) else None
  }

  /** HasPermission: load the user with its role's permissions from the
      database and go on iff one of them has the required slug. */
  method HasPermission(keys: map<string, Value>, requiredPerm: string, users: seq<User>, roles: seq<Role>) returns (o: Outcome)
    ensures LoadUser(keys, users).None? ==> o == Abort(403, "User role not found")
    ensures LoadUser(keys, users).Some? ==>
              (o == Next <==> Grants(RoleOf(roles, LoadUser(keys, users).value.roleId), requiredPerm))
    ensures o != Next && LoadUser(keys, users).Some? ==>
              o == Abort(403, "Missing required permission: " + requiredPerm)
  {
    var user := LoadUser(keys, users);
    if user.None? {
      return Abort(403, "User role not found");
    }
    var perms := RoleOf(roles, user.value.roleId).permissions;
    var hasPerm := false;
    var i := 0;
    while i < |perms|
      invariant 0 <= i <= |perms|
      invariant !hasPerm
      invariant forall j :: 0 <= j < i ==> perms[j].slug != requiredPerm
    {
      if perms[i].slug == requiredPerm {
        hasPerm := true;
        break;
      }
      i := i + 1;
    }
    if !hasPerm {
      return Abort(403, "Missing required permission: " + requiredPerm);
    }
    o := Next;
  }

  /** RequirePermission: go on iff the context's permission list holds the
      required slug; an absent list is refused, an empty one never passes. */
  method RequirePermission(keys: map<string, Value>, required: string) returns (o: Outcome)
    ensures "user_permissions" !in keys ==> o == Abort(403, "No permissions found")
    ensures "user_permissions" in keys && !keys["user_permissions"].ListValue? ==> o == Panic
    ensures "user_permissions" in keys && keys["user_permissions"].ListValue? ==>
              (o == Next <==> required in keys["user_permissions"].items) &&
              (o != Next ==> o == Abort(403, "Missing permission: " + required))
  {
    if "user_permissions" !in keys {
      return Abort(403, "No permissions found");
    }
    if !keys["user_permissions"].ListValue? {
      return Panic;
    }
    var slice := keys["user_permissions"].items;
    var authorized := false;
    var i := 0;
    while i < |slice|
      invariant 0 <= i <= |slice|
      invariant !authorized
      invariant forall j :: 0 <= j < i ==> slice[j] != required
    {
      if slice[i] == required {
        authorized := true;
        break;
      }
      i := i + 1;
    }
    if !authorized {
      return Abort(403, "Missing permission: " + required);
    }
    o := Next;
  }

  /* ---------- Session-version check (cache-aside) ---------- */

  /** Redis key of a user's cached security version: the "user_ver:"
      namespace followed by the user's id, which can be read back from it. */
  function CacheKey(id: Uuid): (k: string)
    ensures "user_ver:" <= k && k[9..] == id
  {
    "user_ver:" + id
  }

  lemma CacheKeyInjective(a: Uuid, b: Uuid)
    requires CacheKey(a) == CacheKey(b)
    ensures a == b
  {
    assert a == CacheKey(a)[9..];
    assert b == CacheKey(b)[9..];
  }

  /** Lifetime of a repopulated cache entry: 24 hours, in seconds. */
  const CacheTtl: int := 24 * 60 * 60

  /** A Redis string value, the time it was set and the expiration it was
      set with, in seconds. */
  datatype CacheEntry = CacheEntry(value: string, setAt: int, ttl: int)

  /** A check's decision and the cache it leaves behind. */
  datatype Validation = Validation(outcome: Outcome, cache: map<string, CacheEntry>)

  /** ValidateSecurityVersion, for the claims of a request arriving at time
      `now`. A cache hit decides alone; any cache error (a missing key, or
      Redis down when redisUp is false) falls back to the user row, and a
      matching row repopulates the cache. `cache` is the keyspace as Redis
      serves it at `now`, that is after Evict. */
  function ValidateSecurityVersion(claims: Claims, cache: map<string, CacheEntry>, redisUp: bool, users: seq<User>, now: int): (r: Validation)
    // A hit compares with the cached value only, and leaves the cache alone.
    ensures redisUp && CacheKey(claims.userId) in cache ==>
              r.cache == cache &&
              (r.outcome == Next <==> cache[CacheKey(claims.userId)].value == claims.securityVersion) &&
              (r.outcome != Next ==> r.outcome == Abort(401, "Session revoked"))
    // A miss compares with the stored version; only a match writes the cache.
    ensures !(redisUp && CacheKey(claims.userId) in cache) ==>
              (r.outcome == Next <==> FindUser(users, claims.userId).Some? &&
                                      FindUser(users, claims.userId).value.securityVersion == claims.securityVersion) &&
              (r.outcome != Next ==> r.outcome == Abort(401, "Invalid session") && r.cache == cache) &&
              (r.outcome == Next ==> r.cache == if redisUp then cache[CacheKey(claims.userId) := CacheEntry(claims.securityVersion, now, CacheTtl)] else cache)
    // Whatever goes on has matched a cached or a stored version.
    ensures r.outcome == Next ==>
              (redisUp && CacheKey(claims.userId) in cache && cache[CacheKey(claims.userId)].value == claims.securityVersion) ||
              (FindUser(users, claims.userId).Some? && FindUser(users, claims.userId).value.securityVersion == claims.securityVersion)
  {
    var key := CacheKey(claims.userId);
    if redisUp && key in cache then
      if cache[key].value != claims.securityVersion then Validation(Abort(401, "Session revoked"), cache)
      else Validation(Next, cache)
    else
      match FindUser(users, claims.userId)
      case None => Validation(Abort(401, "Invalid session"), cache)
      case Some(u) =>
        if u.securityVersion != claims.securityVersion then Validation(Abort(401, "Invalid session"), cache)
        else Validation(Next, if redisUp then cache[key := CacheEntry(u.securityVersion, now, CacheTtl)] else cache)
  }

  /** ValidateSecurityVersion AS WRITTEN reads its claims with
      MustGet("claims"), which panics when the key is absent and whose type
      assertion panics on any other value. */
  function ValidateSecurityVersionFromContext(keys: map<string, Value>, cache: map<string, CacheEntry>, redisUp: bool, users: seq<User>, now: int): (r: Validation)
    ensures "claims" !in keys || !keys["claims"].ClaimsValue? ==> r == Validation(Panic, cache)
    ensures "claims" in keys && keys["claims"].ClaimsValue? ==>
              r == ValidateSecurityVersion(keys["claims"].claims, cache, redisUp, users, now)
  {
    if "claims" in keys && keys["claims"].ClaimsValue? then ValidateSecurityVersion(keys["claims"].claims, cache, redisUp, users, now)
    else Validation(Panic, cache)
  }

  /** No gate sets "claims": behind AuthMiddleware, on a fresh context, the
      check as written panics on every request, whatever the token. */
  lemma ClaimsKeyNeverSet(cl: Claims, cache: map<string, CacheEntry>, redisUp: bool, users: seq<User>, now: int)
    ensures ValidateSecurityVersionFromContext(WithIdentity(map[], cl), cache, redisUp, users, now) == Validation(Panic, cache)
  {
    assert "claims" !in WithIdentity(map[], cl);
  }

  /** Every cached version is the stored version of its user. */
  ghost predicate CacheConsistent(cache: map<string, CacheEntry>, users: seq<User>)
  {
    forall id :: CacheKey(id) in cache ==>
      FindUser(users, id).Some? && cache[CacheKey(id)].value == FindUser(users, id).value.securityVersion
  }

  /** While the cache is consistent it never changes a decision: a request
      goes on iff its token carries the stored version. */
  lemma ValidateAgreesWithStore(claims: Claims, cache: map<string, CacheEntry>, redisUp: bool, users: seq<User>, now: int)
    requires CacheConsistent(cache, users)
    ensures ValidateSecurityVersion(claims, cache, redisUp, users, now).outcome == Next <==>
              FindUser(users, claims.userId).Some? && FindUser(users, claims.userId).value.securityVersion == claims.securityVersion
  {
    if CacheKey(claims.userId) in cache {
      assert cache[CacheKey(claims.userId)].value == FindUser(users, claims.userId).value.securityVersion;
    }
  }

  /** Repopulation writes only stored versions, so the check keeps the
      cache consistent. */
  lemma ValidatePreservesConsistency(claims: Claims, cache: map<string, CacheEntry>, redisUp: bool, users: seq<User>, now: int)
    requires CacheConsistent(cache, users)
    ensures CacheConsistent(ValidateSecurityVersion(claims, cache, redisUp, users, now).cache, users)
  {
    var r := ValidateSecurityVersion(claims, cache, redisUp, users, now);
    forall id | CacheKey(id) in r.cache
      ensures FindUser(users, id).Some? && r.cache[CacheKey(id)].value == FindUser(users, id).value.securityVersion
    {
      if CacheKey(id) == CacheKey(claims.userId) {
        CacheKeyInjective(id, claims.userId);
      }
    }
  }

  /** Running the check again on the cache it left behind gives the same
      decision and writes nothing: repopulation is idempotent. */
  lemma ValidateIdempotent(claims: Claims, cache: map<string, CacheEntry>, redisUp: bool, users: seq<User>, now: int)
    ensures var first := ValidateSecurityVersion(claims, cache, redisUp, users, now);
            ValidateSecurityVersion(claims, first.cache, redisUp, users, now) == first
  {
  }

  /** Redis expiry: the keyspace as served at time `now` holds exactly the
      entries whose expiration has not yet run out, unchanged. */
  function Evict(cache: map<string, CacheEntry>, now: int): (r: map<string, CacheEntry>)
    ensures forall k :: k in r <==> k in cache && now < cache[k].setAt + cache[k].ttl
    ensures forall k :: k in r ==> r[k] == cache[k]
  {
    map k | k in cache && now < cache[k].setAt + cache[k].ttl :: cache[k]
  }

  /** Expiry removes entries, never rewrites them, so it keeps the cache
      consistent. */
  lemma EvictPreservesConsistency(cache: map<string, CacheEntry>, users: seq<User>, now: int)
    requires CacheConsistent(cache, users)
    ensures CacheConsistent(Evict(cache, now), users)
  {
  }

  /** An entry the check repopulates at time `now` is served exactly until
      now + 24 hours. */
  lemma RepopulatedEntryExpires(claims: Claims, cache: map<string, CacheEntry>, users: seq<User>, now: int, later: int)
    requires CacheKey(claims.userId) !in cache
    requires ValidateSecurityVersion(claims, cache, true, users, now).outcome == Next
    ensures CacheKey(claims.userId) in Evict(ValidateSecurityVersion(claims, cache, true, users, now).cache, later) <==>
              later < now + CacheTtl
  {
  }

  /** After a miss that repopulated the cache, the same token is decided by
      the cache alone until the entry expires: it goes on whatever the store
      then holds. */
  lemma RepopulatedHitSkipsStore(claims: Claims, cache: map<string, CacheEntry>, users: seq<User>, laterUsers: seq<User>,
                                 now: int, later: int)
    requires CacheKey(claims.userId) !in cache
    requires ValidateSecurityVersion(claims, cache, true, users, now).outcome == Next
    requires later < now + CacheTtl
    ensures ValidateSecurityVersion(claims, Evict(ValidateSecurityVersion(claims, cache, true, users, now).cache, later),
                                    true, laterUsers, later).outcome == Next
  {
  }
}
