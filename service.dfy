/**
 * The user service (internal/service/user_service.go): registration, login
 * and the role change that rotates a user's security version. The database
 * and Redis are objects whose tables the operations update in place.
 */
module Service {
  import opened Wrappers
  import opened Models
  import opened Jwt
  import opened Middleware

  /** The Postgres tables the service reads and writes. */
  class Store {
    var users: seq<User>
    var roles: seq<Role>

    constructor (users: seq<User>, roles: seq<Role>)
      ensures this.users == users && this.roles == roles
    {
      this.users := users;
      this.roles := roles;
    }
  }

  /** The Redis keyspace. */
  class Redis {
    var entries: map<string, CacheEntry>

    constructor (entries: map<string, CacheEntry>)
      ensures this.entries == entries
    {
      this.entries := entries;
    }
  }

  /** The row a successful Register inserts: the request's username and email,
      the hash in place of the password, the id BeforeCreate draws, role_id 0,
      and the security version the column default draws. */
  function NewUser(req: RegisterRequest, hash: string, id: Uuid, defaultVersion: Uuid): (u: User)
    ensures u.username == req.username && u.email == req.email && u.passwordHash == hash
    ensures u.id == id && u.securityVersion == defaultVersion && u.roleId == 0 && !u.isAdmin
  {
    User(id, req.username, req.email, hash, false, 0, defaultVersion)
  }

  /** Register: hash the password, then insert the user. hashPassword stands
      for bcrypt; insertError for the database refusing the row. */
  method Register(db: Store, req: RegisterRequest, hashPassword: string -> Result<string, string>,
                  newId: Uuid, defaultVersion: Uuid, insertError: Option<string>) returns (err: Option<string>)
    modifies db
    ensures db.roles == old(db.roles)
    ensures hashPassword(req.password).Failure? ==>
              err == Some(hashPassword(req.password).error) && db.users == old(db.users)
    ensures hashPassword(req.password).Success? && insertError.Some? ==>
              err == insertError && db.users == old(db.users)
    ensures hashPassword(req.password).Success? && insertError.None? ==>
              err.None? && db.users == old(db.users) + [NewUser(req, hashPassword(req.password).value, newId, defaultVersion)]
  {
    var hashed := hashPassword(req.password);
    if hashed.Failure? {
      return Some(hashed.error);
    }
    var user := NewUser(req, hashed.value, newId, defaultVersion);
    if insertError.Some? {
      return insertError;
    }
    db.users := db.users + [user];
    err := None;
  }

  /** A registered user is the one a later login by that username finds, and
      the cache stays consistent, provided the username and the id were
      unused. */
  lemma RegisteredUserFound(users: seq<User>, cache: map<string, CacheEntry>, u: User)
    requires FindByUsername(users, u.username).None? && FindUser(users, u.id).None?
    requires CacheConsistent(cache, users)
    ensures FindByUsername(users + [u], u.username) == Some(u)
    ensures FindUser(users + [u], u.id) == Some(u)
    ensures CacheConsistent(cache, users + [u])
  {
    AppendedUsernameFound(users, u);
    AppendKeepsLookup(users, u, u.id);
    forall id | CacheKey(id) in cache
      ensures FindUser(users + [u], id) == FindUser(users, id)
    {
      AppendKeepsLookup(users, u, id);
    }
  }

  /** Login: the same "invalid credentials" error for an unknown username and
      for a wrong password; otherwise a token for the user's id, role name and
      the slugs of the role's permissions, in order. checkPassword(plain,
      hash) stands for bcrypt's comparison. */
  method Login(db: Store, username: string, password: string, checkPassword: (string, string) -> bool,
               codec: Codec, secret: string, now: int) returns (r: Result<string, string>)
    ensures FindByUsername(db.users, username).None? ==> r == Failure("invalid credentials")
    ensures FindByUsername(db.users, username).Some? && !checkPassword(password, FindByUsername(db.users, username).value.passwordHash) ==>
              r == Failure("invalid credentials")
    ensures FindByUsername(db.users, username).Some? && checkPassword(password, FindByUsername(db.users, username).value.passwordHash) ==>
              var u := FindByUsername(db.users, username).value;
              var role := RoleOf(db.roles, u.roleId);
              r == GenerateToken(codec, secret, u.id, role.name, SlugsOf(role.permissions), now)
  {
    var found := FindByUsername(db.users, username);
    if found.None? {
      return Failure("invalid credentials");
    }
    var user := found.value;
    if !checkPassword(password, user.passwordHash) {
      return Failure("invalid credentials");
    }
    var perms := RoleOf(db.roles, user.roleId).permissions;
    var permSlugs: seq<string> := [];
    var i := 0;
    while i < |perms|
      invariant 0 <= i <= |perms|
      invariant |permSlugs| == i
      invariant forall j :: 0 <= j < i ==> permSlugs[j] == perms[j].slug
    {
      permSlugs := permSlugs + [perms[i].slug];
      i := i + 1;
    }
    assert permSlugs == SlugsOf(perms);
    r := GenerateToken(codec, secret, user.id, RoleOf(db.roles, user.roleId).name, permSlugs, now);
  }

  /** UpdateUserRole: in one transaction, write the new role and a fresh
      security version in one update; if it fails, return the error with
      nothing written. Otherwise delete the user's cache key (ignoring the
      result: when Redis is down nothing is deleted) and commit. */
  method UpdateUserRole(db: Store, rdb: Redis, targetUserId: Uuid, newRoleId: nat, newVersion: Uuid,
                        updateError: Option<string>, redisUp: bool) returns (err: Option<string>)
    modifies db, rdb
    ensures db.roles == old(db.roles)
    ensures updateError.Some? ==> err == updateError && db.users == old(db.users) && rdb.entries == old(rdb.entries)
    ensures updateError.None? ==>
              err.None? &&
              db.users == UpdateRows(old(db.users), targetUserId, newRoleId, newVersion) &&
              rdb.entries == if redisUp then old(rdb.entries) - {CacheKey(targetUserId)} else old(rdb.entries)
  {
    // The transaction's writes stay pending until the closure returns nil.
    var pending := UpdateRows(db.users, targetUserId, newRoleId, newVersion);
    if updateError.Some? {
      return updateError;
    }
    var cacheKey := CacheKey(targetUserId);
    if redisUp {
      rdb.entries := rdb.entries - {cacheKey};
    }
    db.users := pending;
    err := None;
  }

  /** After a role change whose cache delete went through, a request passes
      the session check iff its token carries the fresh version (and the user
      exists): every token minted before the change is refused on the very
      next request, by a miss and a store mismatch. */
  lemma RoleChangeRevokes(users: seq<User>, cache: map<string, CacheEntry>, target: Uuid, newRoleId: nat,
                          newVersion: Uuid, claims: Claims, redisUp: bool, now: int)
    requires claims.userId == target
    ensures var r := ValidateSecurityVersion(claims, cache - {CacheKey(target)}, redisUp, UpdateRows(users, target, newRoleId, newVersion), now);
            (r.outcome == Next <==> FindUser(users, target).Some? && claims.securityVersion == newVersion) &&
            (r.outcome != Next ==> r.outcome == Abort(401, "Invalid session"))
  {
    UpdatedUserFound(users, target, newRoleId, newVersion);
  }

  /** A role change keeps the cache consistent when its delete went through. */
  lemma RoleChangePreservesConsistency(users: seq<User>, cache: map<string, CacheEntry>, target: Uuid,
                                       newRoleId: nat, newVersion: Uuid)
    requires CacheConsistent(cache, users)
    ensures CacheConsistent(cache - {CacheKey(target)}, UpdateRows(users, target, newRoleId, newVersion))
  {
    forall id | CacheKey(id) in cache - {CacheKey(target)}
      ensures FindUser(UpdateRows(users, target, newRoleId, newVersion), id) == FindUser(users, id)
    {
      OtherUsersUntouched(users, target, newRoleId, newVersion, id);
    }
  }

  /** When Redis was down for the delete, the old entry survives: a token
      with the previous version still passes on a hit until the entry's
      24-hour expiration runs out, and is refused from then on. */
  lemma FailedDeleteWaitsForEviction(users: seq<User>, cache: map<string, CacheEntry>, target: Uuid,
                                     newRoleId: nat, newVersion: Uuid, claims: Claims, now: int)
    requires claims.userId == target
    requires CacheKey(target) in cache && cache[CacheKey(target)].value == claims.securityVersion
    requires cache[CacheKey(target)].ttl == CacheTtl
    requires newVersion != claims.securityVersion
    ensures now < cache[CacheKey(target)].setAt + CacheTtl ==>
              ValidateSecurityVersion(claims, Evict(cache, now), true,
                                      UpdateRows(users, target, newRoleId, newVersion), now).outcome == Next
    ensures cache[CacheKey(target)].setAt + CacheTtl <= now ==>
              ValidateSecurityVersion(claims, Evict(cache, now), true,
                                      UpdateRows(users, target, newRoleId, newVersion), now).outcome == Abort(401, "Invalid session")
  {
    UpdatedUserFound(users, target, newRoleId, newVersion);
  }

  /* ---------- Tokens as issued (GenerateToken) and as evidently intended ---------- */

  /** AS WRITTEN, a token from Login carries the zero security version, so
      for a user whose stored version is not the zero UUID (the column default
      draws a random one) the session check refuses it, with a consistent
      cache, on every request. */
  lemma IssuedTokenFailsSessionCheck(users: seq<User>, roles: seq<Role>, cache: map<string, CacheEntry>,
                                     redisUp: bool, u: User, issued: int, now: int)
    requires FindUser(users, u.id) == Some(u) && u.securityVersion != NilUuid
    requires CacheConsistent(cache, users)
    ensures var role := RoleOf(roles, u.roleId);
            ValidateSecurityVersion(GenerateClaims(u.id, role.name, SlugsOf(role.permissions), issued), cache, redisUp, users, now).outcome != Next
  {
    var role := RoleOf(roles, u.roleId);
    ValidateAgreesWithStore(GenerateClaims(u.id, role.name, SlugsOf(role.permissions), issued), cache, redisUp, users, now);
  }

  /** Stamped with the user's stored version, the login token passes the
      session check until the user's role changes, and is refused on the
      first request after the change. */
  lemma VersionedTokenLifecycle(users: seq<User>, roles: seq<Role>, cache: map<string, CacheEntry>,
                                redisUp: bool, u: User, issued: int, now: int, later: int,
                                newRoleId: nat, newVersion: Uuid)
    requires FindUser(users, u.id) == Some(u) && newVersion != u.securityVersion
    requires CacheConsistent(cache, users)
    ensures var role := RoleOf(roles, u.roleId);
            var claims := VersionedClaims(u.id, role.name, SlugsOf(role.permissions), u.securityVersion, issued);
            var before := ValidateSecurityVersion(claims, cache, redisUp, users, now);
            before.outcome == Next &&
            ValidateSecurityVersion(claims, before.cache - {CacheKey(u.id)}, redisUp,
                                    UpdateRows(users, u.id, newRoleId, newVersion), later).outcome == Abort(401, "Invalid session")
  {
    var role := RoleOf(roles, u.roleId);
    var claims := VersionedClaims(u.id, role.name, SlugsOf(role.permissions), u.securityVersion, issued);
    ValidateAgreesWithStore(claims, cache, redisUp, users, now);
    var before := ValidateSecurityVersion(claims, cache, redisUp, users, now);
    RoleChangeRevokes(users, before.cache, u.id, newRoleId, newVersion, claims, redisUp, later);
  }

  /* ---------- Ordering of the cache delete and the commit ---------- */

  /** AS WRITTEN, the delete runs inside the transaction. A request that
      arrives between the delete and the commit misses the cache, reads the
      still-committed old row and repopulates the old version; after the
      commit, `next` is decided against that entry. */
  function DeleteInsideTransaction(users: seq<User>, cache: map<string, CacheEntry>, target: Uuid, newRoleId: nat,
                                   newVersion: Uuid, concurrent: Claims, next: Claims, now: int): Outcome
  {
    var pending := UpdateRows(users, target, newRoleId, newVersion);
    var afterDelete := cache - {CacheKey(target)};
    var raced := ValidateSecurityVersion(concurrent, afterDelete, true, users, now).cache;
    ValidateSecurityVersion(next, raced, true, pending, now).outcome
  }

  /** The race that defeats revocation: one concurrent request with the old
      token in that window, and the old token keeps passing after the role
      change, until the entry's 24-hour TTL runs out. */
  lemma DeleteInsideTransactionRace(users: seq<User>, cache: map<string, CacheEntry>, target: Uuid, newRoleId: nat,
                                    newVersion: Uuid, claims: Claims, now: int)
    requires FindUser(users, target).Some? && claims.userId == target
    requires claims.securityVersion == FindUser(users, target).value.securityVersion
    requires newVersion != claims.securityVersion
    ensures DeleteInsideTransaction(users, cache, target, newRoleId, newVersion, claims, claims, now) == Next
  {
    UpdatedUserFound(users, target, newRoleId, newVersion);
  }

  /** The order evidently intended: commit, then delete. `early` arrives
      before the commit (it reads the old row), `late` between the commit and
      the delete (it reads the new row); then `next` arrives. */
  function DeleteAfterCommit(users: seq<User>, cache: map<string, CacheEntry>, target: Uuid, newRoleId: nat,
                             newVersion: Uuid, early: Claims, late: Claims, next: Claims, now: int): Outcome
  {
    var committed := UpdateRows(users, target, newRoleId, newVersion);
    var c1 := ValidateSecurityVersion(early, cache, true, users, now).cache;
    var c2 := ValidateSecurityVersion(late, c1, true, committed, now).cache;
    ValidateSecurityVersion(next, c2 - {CacheKey(target)}, true, committed, now).outcome
  }

  /** With the delete after the commit, no concurrent request can bring the
      old version back: the next request with an old token is refused. */
  lemma DeleteAfterCommitRevokes(users: seq<User>, cache: map<string, CacheEntry>, target: Uuid, newRoleId: nat,
                                 newVersion: Uuid, early: Claims, late: Claims, next: Claims, now: int)
    requires next.userId == target && next.securityVersion != newVersion
    ensures DeleteAfterCommit(users, cache, target, newRoleId, newVersion, early, late, next, now) == Abort(401, "Invalid session")
  {
    var committed := UpdateRows(users, target, newRoleId, newVersion);
    var c1 := ValidateSecurityVersion(early, cache, true, users, now).cache;
    var c2 := ValidateSecurityVersion(late, c1, true, committed, now).cache;
    RoleChangeRevokes(users, c2, target, newRoleId, newVersion, next, true, now);
  }

  /* ---------- The seeded roles ---------- */

  const FinView := Permission(1, "View Invoices", "FIN_VIEW")
  const HrManage := Permission(2, "Manage Employees", "HR_MANAGE")
  const IctAdmin := Permission(3, "System Config", "ICT_ADMIN")

  /** The roles the seeder creates, with their permissions. The order of
      ICT's list is the seeder's literal; the program itself gets it from a
      `slug IN ?` query and a preload, neither of which fixes an order. */
  function SeedRoles(): seq<Role>
  {
    [Role(1, "Finance", [FinView]), Role(2, "HR", [HrManage]), Role(3, "ICT", [IctAdmin, FinView, HrManage])]
  }

  /** Against the seeded roles, the durable permission check for FIN_VIEW
      passes Finance and ICT users and refuses HR users, ICT is granted all
      three slugs, and a Finance login carries exactly ["FIN_VIEW"]. */
  lemma SeedFixtureGrants()
    ensures Grants(RoleOf(SeedRoles(), 1), "FIN_VIEW") && Grants(RoleOf(SeedRoles(), 3), "FIN_VIEW")
    ensures !Grants(RoleOf(SeedRoles(), 2), "FIN_VIEW")
    ensures Grants(RoleOf(SeedRoles(), 3), "ICT_ADMIN") && Grants(RoleOf(SeedRoles(), 3), "HR_MANAGE")
    ensures SlugsOf(RoleOf(SeedRoles(), 1).permissions) == ["FIN_VIEW"]
  {
    assert RoleOf(SeedRoles(), 1).permissions[0].slug == "FIN_VIEW";
    assert RoleOf(SeedRoles(), 3).permissions[0].slug == "ICT_ADMIN";
    assert RoleOf(SeedRoles(), 3).permissions[1].slug == "FIN_VIEW";
    assert RoleOf(SeedRoles(), 3).permissions[2].slug == "HR_MANAGE";
  }
}
