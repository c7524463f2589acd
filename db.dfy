/**
 * The relational store the server handlers read and write: one table per
 * entity, held in memory. Entity tables are sequences of rows in insertion
 * order, looked up by their unique keys; refresh tokens are keyed by the
 * token string, which is unique.
 */
module Db {
  import opened Wrappers
  import opened ThemeSchema
  import opened Http

  datatype User = User(
    id: string, email: string, password: string, name: Option<string>,
    isActive: bool, isSuperAdmin: bool, tenantId: Option<string>, createdAt: nat)

  datatype Role = Role(
    id: string, name: string, description: Option<string>,
    isGlobal: bool, tenantId: Option<string>)

  datatype Permission = Permission(id: string, name: string, description: Option<string>)

  /** A role held by a user. */
  datatype UserRole = UserRole(userId: string, roleId: string)

  /** A permission granted by a role. */
  datatype RolePermission = RolePermission(roleId: string, permissionId: string)

  datatype Tenant = Tenant(id: string, name: string, slug: string, isActive: bool, createdAt: nat)

  datatype Setting = Setting(key: string, value: ThemeFields, tenantId: Option<string>)

  datatype ThemeTemplate = ThemeTemplate(
    id: string, name: string, settings: ThemeFields,
    isGlobal: bool, isDefault: bool, tenantId: Option<string>)

  /** A stored refresh token; the token string itself is the key of its table. */
  datatype RefreshRecord = RefreshRecord(userId: string, expiresAt: nat, revokedAt: Option<nat>)

  /** The whole store as a value. */
  datatype Tables = Tables(
    users: seq<User>,
    roles: seq<Role>,
    permissions: seq<Permission>,
    userRoles: seq<UserRole>,
    rolePermissions: seq<RolePermission>,
    tenants: seq<Tenant>,
    settings: seq<Setting>,
    themeTemplates: seq<ThemeTemplate>,
    refreshTokens: map<string, RefreshRecord>)

  /**
   * What a request handler did: its result, the tables afterwards and what
   * it wrote to the `refresh_token` response cookie.
   */
  datatype Effect<+T> = Effect(result: Result<T, HttpError>, tables: Tables, cookie: CookieWrite)

  /** A refusal that changes nothing. */
  function Refuse<T>(t: Tables, error: HttpError): (e: Effect<T>)
    ensures e.result.Failure? && e.tables == t && e.cookie == Untouched
  {
    Effect(Failure(error), t, Untouched)
  }

  /** A write the database rejects (a unique or foreign-key violation): the request fails. */
  const ConstraintViolation := HttpError(500, "Internal Server Error")

  /** The first row satisfying `matches`, as a unique-key lookup answers it. */
  function Find<T>(rows: seq<T>, matches: T -> bool): (r: Option<T>)
    ensures r.Some? ==> r.value in rows && matches(r.value)
    ensures r.None? <==> forall x :: x in rows ==> !matches(x)
  {
    if rows == [] then None
    else if matches(rows[0]) then Some(rows[0])
    else Find(rows[1..], matches)
  }

  function UserById(t: Tables, id: string): (u: Option<User>)
    ensures u.Some? ==> u.value in t.users && u.value.id == id
    ensures u.None? <==> forall x :: x in t.users ==> x.id != id
  {
    Find(t.users, (x: User) => x.id == id)
  }

  function UserByEmail(t: Tables, email: string): (u: Option<User>)
    ensures u.Some? ==> u.value in t.users && u.value.email == email
    ensures u.None? <==> forall x :: x in t.users ==> x.email != email
  {
    Find(t.users, (x: User) => x.email == email)
  }

  function RoleById(t: Tables, id: string): (r: Option<Role>)
    ensures r.Some? ==> r.value in t.roles && r.value.id == id
    ensures r.None? <==> forall x :: x in t.roles ==> x.id != id
  {
    Find(t.roles, (x: Role) => x.id == id)
  }

  function RoleByName(t: Tables, name: string): (r: Option<Role>)
    ensures r.Some? ==> r.value in t.roles && r.value.name == name
    ensures r.None? <==> forall x :: x in t.roles ==> x.name != name
  {
    Find(t.roles, (x: Role) => x.name == name)
  }

  function PermissionById(t: Tables, id: string): (p: Option<Permission>)
    ensures p.Some? ==> p.value in t.permissions && p.value.id == id
    ensures p.None? <==> forall x :: x in t.permissions ==> x.id != id
  {
    Find(t.permissions, (x: Permission) => x.id == id)
  }

  function TenantById(t: Tables, id: string): (r: Option<Tenant>)
    ensures r.Some? ==> r.value in t.tenants && r.value.id == id
    ensures r.None? <==> forall x :: x in t.tenants ==> x.id != id
  {
    Find(t.tenants, (x: Tenant) => x.id == id)
  }

  function TenantBySlug(t: Tables, slug: string): (r: Option<Tenant>)
    ensures r.Some? ==> r.value in t.tenants && r.value.slug == slug
    ensures r.None? <==> forall x :: x in t.tenants ==> x.slug != slug
  {
    Find(t.tenants, (x: Tenant) => x.slug == slug)
  }

  /** The primary key of the users table: no two rows share an id. */
  predicate UniqueUserIds(t: Tables)
  {
    forall i, j :: 0 <= i < j < |t.users| ==> t.users[i].id != t.users[j].id
  }

  /** The unique key on users' email addresses. */
  predicate UniqueEmails(t: Tables)
  {
    forall i, j :: 0 <= i < j < |t.users| ==> t.users[i].email != t.users[j].email
  }

  /** The unique key on role names. */
  predicate UniqueRoleNames(t: Tables)
  {
    forall i, j :: 0 <= i < j < |t.roles| ==> t.roles[i].name != t.roles[j].name
  }

  /** The unique key on tenant slugs. */
  predicate UniqueSlugs(t: Tables)
  {
    forall i, j :: 0 <= i < j < |t.tenants| ==> t.tenants[i].slug != t.tenants[j].slug
  }

  /**
   * Appending a row whose key no existing row has keeps a key unique; stated
   * once for every table.
   */
  lemma {:induction false} AppendKeepsUnique<T, K>(rows: seq<T>, x: T, key: T -> K)
    requires forall i, j :: 0 <= i < j < |rows| ==> key(rows[i]) != key(rows[j])
    requires forall y :: y in rows ==> key(y) != key(x)
    ensures forall i, j :: 0 <= i < j < |rows + [x]| ==> key((rows + [x])[i]) != key((rows + [x])[j])
  {
    var rs := rows + [x];
    forall i, j | 0 <= i < j < |rs|
      ensures key(rs[i]) != key(rs[j])
    {
      if j == |rows| {
        assert rs[i] in rows;
      } else {
        assert rs[i] == rows[i] && rs[j] == rows[j];
      }
    }
  }

  /** Adding a user keeps every user id found by lookup. */
  lemma AddUserKeepsUsers(t: Tables, nu: User, links: seq<UserRole>)
    ensures var t' := t.(users := t.users + [nu], userRoles := t.userRoles + links);
            UserById(t', nu.id).Some? && forall id :: UserById(t, id).Some? ==> UserById(t', id).Some?
  {
    var t' := t.(users := t.users + [nu], userRoles := t.userRoles + links);
    assert nu in t'.users;
    forall id | UserById(t, id).Some? ensures UserById(t', id).Some? {
      assert UserById(t, id).value in t'.users;
    }
  }

  /**
   * A user with an id no user has, linked only to roles that exist, keeps the
   * primary key of users and the foreign keys of the join and token tables.
   */
  lemma AddUserKeepsKeys(t: Tables, nu: User, links: seq<UserRole>)
    requires UniqueUserIds(t) && JoinKeysExist(t) && OwnersExist(t)
    requires forall u :: u in t.users ==> u.id != nu.id
    requires forall l :: l in links ==> l.userId == nu.id && RoleById(t, l.roleId).Some?
    ensures var t' := t.(users := t.users + [nu], userRoles := t.userRoles + links);
            UniqueUserIds(t') && JoinKeysExist(t') && OwnersExist(t')
  {
    var t' := t.(users := t.users + [nu], userRoles := t.userRoles + links);
    AppendKeepsUnique(t.users, nu, (u: User) => u.id);
    AddUserKeepsUsers(t, nu, links);
    assert forall id :: RoleById(t', id) == RoleById(t, id);
    assert forall id :: PermissionById(t', id) == PermissionById(t, id);
  }

  /** Under the primary key, looking a stored user up by id finds that very row. */
  lemma UserByOwnId(t: Tables, u: User)
    requires UniqueUserIds(t) && u in t.users
    ensures UserById(t, u.id) == Some(u)
  {
    var x := UserById(t, u.id).value;
    var i :| 0 <= i < |t.users| && t.users[i] == x;
    var j :| 0 <= j < |t.users| && t.users[j] == u;
    assert t.users[i].id == t.users[j].id;
    assert i == j;
  }

  /** The foreign key of the refresh-token table: every record's owner exists. */
  predicate OwnersExist(t: Tables)
  {
    forall token :: token in t.refreshTokens ==> UserById(t, t.refreshTokens[token].userId).Some?
  }

  /** The foreign keys of the join tables: both ends of every row exist. */
  predicate JoinKeysExist(t: Tables)
  {
    && (forall ur :: ur in t.userRoles ==> UserById(t, ur.userId).Some? && RoleById(t, ur.roleId).Some?)
    && (forall rp :: rp in t.rolePermissions ==> RoleById(t, rp.roleId).Some? && PermissionById(t, rp.permissionId).Some?)
  }

  /** No row of any entity table uses `id`: a freshly generated identifier. */
  predicate FreshId(t: Tables, id: string)
  {
    && (forall u :: u in t.users ==> u.id != id)
    && (forall r :: r in t.roles ==> r.id != id)
    && (forall p :: p in t.permissions ==> p.id != id)
    && (forall x :: x in t.tenants ==> x.id != id)
    && (forall x :: x in t.themeTemplates ==> x.id != id)
  }

  /** The database connection: the tables as fields the handlers write. */
  class Database {
    var users: seq<User>
    var roles: seq<Role>
    var permissions: seq<Permission>
    var userRoles: seq<UserRole>
    var rolePermissions: seq<RolePermission>
    var tenants: seq<Tenant>
    var settings: seq<Setting>
    var themeTemplates: seq<ThemeTemplate>
    var refreshTokens: map<string, RefreshRecord>

    function Snapshot(): Tables
      reads this
    {
      Tables(users, roles, permissions, userRoles, rolePermissions, tenants,
             settings, themeTemplates, refreshTokens)
    }

    constructor (t: Tables)
      ensures Snapshot() == t
    {
      users, roles, permissions := t.users, t.roles, t.permissions;
      userRoles, rolePermissions := t.userRoles, t.rolePermissions;
      tenants, settings, themeTemplates := t.tenants, t.settings, t.themeTemplates;
      refreshTokens := t.refreshTokens;
    }
  }
}
