/**
 * The persistent records of the service (internal/models/user.go) and the
 * table lookups the core performs on them. Tables are sequences of rows in
 * storage order; a lookup returns the first matching row, as gorm's First
 * does for the unique columns used here.
 */
module Models {
  import opened Wrappers

  /** A UUID, represented by its canonical text form (what uuid.UUID.String
      returns). The text form is injective, so comparing two UUIDs and
      comparing their strings agree. */
  type Uuid = string

  /** The zero value of uuid.UUID. */
  const NilUuid: Uuid := "00000000-0000-0000-0000-000000000000"

  datatype Permission = Permission(id: nat, name: string, slug: string)

  datatype Role = Role(id: nat, name: string, permissions: seq<Permission>)

  /** A user row; passwordHash holds the bcrypt hash, never the plaintext. */
  datatype User = User(
    id: Uuid,
    username: string,
    email: string,
    passwordHash: string,
    isAdmin: bool,
    roleId: nat,
    securityVersion: Uuid)

  datatype RegisterRequest = RegisterRequest(username: string, email: string, password: string)

  /** What a preload of Role leaves in a user whose role row does not exist:
      the zero Role, with an empty name and no permissions. */
  const ZeroRole := Role(0, "", [])

  /** The user row with the given primary key. */
  function FindUser(users: seq<User>, id: Uuid): (r: Option<User>)
    ensures r.Some? ==> r.value in users && r.value.id == id
    ensures r.None? <==> forall i :: 0 <= i < |users| ==> users[i].id != id
  {
    if users == [] then None
    else if users[0].id == id then Some(users[0])
    else FindUser(users[1..], id)
  }

  /** The user row with the given username. It is a lookup of its own,
      rather than FindUser over another column, because the two columns
      play different parts: the primary key identifies a user everywhere,
      the username only at login. */
  function FindByUsername(users: seq<User>, username: string): (r: Option<User>)
    ensures r.Some? ==> r.value in users && r.value.username == username
    ensures r.None? <==> forall i :: 0 <= i < |users| ==> users[i].username != username
  {
    if users == [] then None
    else if users[0].username == username then Some(users[0])
    else FindByUsername(users[1..], username)
  }

  /** The role a preload of Role.Permissions attaches to a user with the given
      role_id: the role row with that id, or ZeroRole when there is none. */
  function RoleOf(roles: seq<Role>, roleId: nat): (r: Role)
    ensures (exists i :: 0 <= i < |roles| && roles[i].id == roleId) ==> r in roles && r.id == roleId
    ensures (forall i :: 0 <= i < |roles| ==> roles[i].id != roleId) ==> r == ZeroRole
  {
    if roles == [] then ZeroRole
    else if roles[0].id == roleId then roles[0]
    else RoleOf(roles[1..], roleId)
  }

  /** Does some permission of the role carry the slug? */
  predicate Grants(role: Role, slug: string)
  {
    exists i :: 0 <= i < |role.permissions| && role.permissions[i].slug == slug
  }

  /** The slugs of the permissions, in order. */
  function SlugsOf(perms: seq<Permission>): (r: seq<string>)
    ensures |r| == |perms|
    ensures forall i :: 0 <= i < |perms| ==> r[i] == perms[i].slug
  {
    if perms == [] then [] else [perms[0].slug] + SlugsOf(perms[1..])
  }

  /** The rows after `UPDATE users SET role_id = roleId, security_version =
      version WHERE id = id`. */
  function UpdateRows(users: seq<User>, id: Uuid, roleId: nat, version: Uuid): (r: seq<User>)
    ensures |r| == |users|
    ensures forall i :: 0 <= i < |users| ==>
              r[i] == if users[i].id == id then users[i].(roleId := roleId, securityVersion := version) else users[i]
  {
    if users == [] then []
    else
      var head := if users[0].id == id then users[0].(roleId := roleId, securityVersion := version) else users[0];
      [head] + UpdateRows(users[1..], id, roleId, version)
  }

  /** The updated user is found with its new role and version. */
  lemma {:induction false} UpdatedUserFound(users: seq<User>, id: Uuid, roleId: nat, version: Uuid)
    ensures FindUser(UpdateRows(users, id, roleId, version), id) ==
            match FindUser(users, id)
            case None => None
            case Some(u) => Some(u.(roleId := roleId, securityVersion := version))
  {
    if users != [] && users[0].id != id {
      UpdatedUserFound(users[1..], id, roleId, version);
    }
  }

  /** The update touches no other user. */
  lemma {:induction false} OtherUsersUntouched(users: seq<User>, id: Uuid, roleId: nat, version: Uuid, other: Uuid)
    requires other != id
    ensures FindUser(UpdateRows(users, id, roleId, version), other) == FindUser(users, other)
  {
    if users != [] && users[0].id != other {
      OtherUsersUntouched(users[1..], id, roleId, version, other);
    }
  }

  /** Appending a row whose key is new does not change any earlier lookup. */
  lemma {:induction false} AppendKeepsLookup(users: seq<User>, u: User, id: Uuid)
    requires FindUser(users, u.id).None?
    ensures FindUser(users + [u], id) == if id == u.id then Some(u) else FindUser(users, id)
  {
    if users == [] {
      assert users + [u] == [u];
    } else {
      assert (users + [u])[1..] == users[1..] + [u];
      if users[0].id != id {
        AppendKeepsLookup(users[1..], u, id);
      }
    }
  }

  /** A row appended with an unused username is what a later login finds. */
  lemma {:induction false} AppendedUsernameFound(users: seq<User>, u: User)
    requires FindByUsername(users, u.username).None?
    ensures FindByUsername(users + [u], u.username) == Some(u)
  {
    if users == [] {
      assert users + [u] == [u];
    } else {
      assert (users + [u])[1..] == users[1..] + [u];
      AppendedUsernameFound(users[1..], u);
    }
  }
}
