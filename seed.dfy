/**
 * The database seed (prisma/seed.ts): the permission catalogue, the three
 * global role templates and their permission sets, the demo tenant, accounts
 * and theme rows, and the keyed upserts and find-or-create steps that write
 * them. Every step either finds the row its key selects or creates one, so
 * the seed can run against an empty or an already seeded database.
 */
module Seed {
  import opened Wrappers
  import opened Text
  import opened ThemeSchema
  import opened Db
  import Listing
  import Permissions
  import Password

  // ---------------------------------------------------------------------
  // The permission catalogue and the role permission sets
  // ---------------------------------------------------------------------

  datatype PermissionSpec = PermissionSpec(name: string, description: string)

  /** `ALL_PERMISSIONS`, in declaration order. */
  const AllPermissions: seq<PermissionSpec> := [
    PermissionSpec("users:read", "View users"),
    PermissionSpec("users:create", "Create users"),
    PermissionSpec("users:update", "Update users"),
    PermissionSpec("users:delete", "Delete users"),
    PermissionSpec("roles:read", "View roles"),
    PermissionSpec("roles:create", "Create roles"),
    PermissionSpec("roles:update", "Update roles"),
    PermissionSpec("roles:delete", "Delete roles"),
    PermissionSpec("permissions:read", "View permissions"),
    PermissionSpec("settings:read", "View settings"),
    PermissionSpec("settings:update", "Update settings"),
    PermissionSpec("tenants:read", "View all tenants"),
    PermissionSpec("tenants:create", "Create tenants"),
    PermissionSpec("tenants:update", "Update tenants"),
    PermissionSpec("tenants:delete", "Delete tenants")
  ]

  function Names(specs: seq<PermissionSpec>): (r: seq<string>)
    ensures |r| == |specs|
    ensures forall i :: 0 <= i < |specs| ==> r[i] == specs[i].name
  {
    seq(|specs|, i requires 0 <= i < |specs| => specs[i].name)
  }

  /** `SUPER_ADMIN_PERMISSIONS`: every name in the catalogue. */
  const SuperAdminPermissions: seq<string> := Names(AllPermissions)

  const TenantAdminPermissions: seq<string> := [
    "users:read", "users:create", "users:update", "users:delete",
    "roles:read", "roles:create", "roles:update", "roles:delete",
    "permissions:read",
    "settings:read", "settings:update"
  ]

  const TenantUserPermissions: seq<string> := [
    "users:read", "roles:read", "permissions:read", "settings:read"
  ]

  /** The catalogue holds fifteen permissions whose names are pairwise distinct. */
  lemma CatalogueNamesDistinct()
    ensures |AllPermissions| == 15 && |SuperAdminPermissions| == 15
    ensures Permissions.NoDuplicates(SuperAdminPermissions)
  {
    var names := SuperAdminPermissions;
    assert names == [
      "users:read", "users:create", "users:update", "users:delete",
      "roles:read", "roles:create", "roles:update", "roles:delete",
      "permissions:read", "settings:read", "settings:update",
      "tenants:read", "tenants:create", "tenants:update", "tenants:delete"];
  }

  /**
   * The role sets are nested: tenant_user's permissions are among
   * tenant_admin's, which are among super_admin's; tenant_admin holds no
   * tenant-management permission, and super_admin holds all four.
   */
  lemma PermissionSetsNested()
    ensures forall n :: n in TenantUserPermissions ==> n in TenantAdminPermissions
    ensures forall n :: n in TenantAdminPermissions ==> n in SuperAdminPermissions
    ensures forall n :: n in TenantAdminPermissions ==> !StartsWith(n, "tenants:")
    ensures forall n :: n in ["tenants:read", "tenants:create", "tenants:update", "tenants:delete"]
              ==> n in SuperAdminPermissions && n !in TenantAdminPermissions
  {
    var names := SuperAdminPermissions;
    assert names == [
      "users:read", "users:create", "users:update", "users:delete",
      "roles:read", "roles:create", "roles:update", "roles:delete",
      "permissions:read", "settings:read", "settings:update",
      "tenants:read", "tenants:create", "tenants:update", "tenants:delete"];
    forall n | n in TenantAdminPermissions
      ensures !StartsWith(n, "tenants:")
    {
      assert n[0] != "tenants:"[0];
    }
  }

  // ---------------------------------------------------------------------
  // Keyed writes: find-or-create and upsert
  // ---------------------------------------------------------------------

  /** The row a keyed write returns and the table after the write. */
  datatype Written<T> = Written(row: T, rows: seq<T>)

  /**
   * `findFirst` by `key`, then `create` when no row matched. An `upsert`
   * whose `update` part is empty does the same.
   */
  function FindOrCreate<T>(rows: seq<T>, key: T -> bool, create: T): Written<T>
  {
    match Find(rows, key)
    case Some(x) => Written(x, rows)
    case None => Written(create, rows + [create])
  }

  /** Every row `key` selects passed through `update`; the others kept, in place. */
  function UpdateWhere<T>(rows: seq<T>, key: T -> bool, update: T -> T): (r: seq<T>)
    ensures |r| == |rows|
    ensures forall i :: 0 <= i < |rows| ==> r[i] == if key(rows[i]) then update(rows[i]) else rows[i]
  {
    if rows == [] then []
    else [if key(rows[0]) then update(rows[0]) else rows[0]] + UpdateWhere(rows[1..], key, update)
  }

  /**
   * `upsert`: when a row matches the unique key it is updated and returned,
   * otherwise `create` is appended and returned. Under the unique key at
   * most one row matches, so updating every matching row updates that one.
   */
  function Upsert<T>(rows: seq<T>, key: T -> bool, update: T -> T, create: T): Written<T>
  {
    match Find(rows, key)
    case Some(x) => Written(update(x), UpdateWhere(rows, key, update))
    case None => Written(create, rows + [create])
  }

  /** Appending a row leaves a match among the earlier rows first. */
  lemma {:induction false} FindAppend<T>(rows: seq<T>, key: T -> bool, x: T)
    ensures Find(rows + [x], key)
            == if Find(rows, key).Some? then Find(rows, key) else if key(x) then Some(x) else None
  {
    if rows == [] {
      assert [x][1..] == [];
    } else {
      assert (rows + [x])[1..] == rows[1..] + [x];
      FindAppend(rows[1..], key, x);
    }
  }

  /** Two keys that select the same rows find the same row. */
  lemma {:induction false} FindAgrees<T>(rows: seq<T>, key: T -> bool, key': T -> bool)
    requires forall x :: key(x) == key'(x)
    ensures Find(rows, key) == Find(rows, key')
  {
    if rows != [] {
      FindAgrees(rows[1..], key, key');
    }
  }

  /**
   * After updating the rows `key` selects, a lookup by `other` finds the
   * updated form of what it found before, provided `update` keeps `other`;
   * when the two keys select disjoint rows it finds the very same row.
   */
  lemma {:induction false} FindUpdateWhere<T>(rows: seq<T>, key: T -> bool, update: T -> T, other: T -> bool)
    requires forall x :: other(update(x)) == other(x)
    ensures var r := UpdateWhere(rows, key, update);
      && Find(r, other).Some? == Find(rows, other).Some?
      && (Find(rows, other).Some? ==>
            var x := Find(rows, other).value;
            Find(r, other) == Some(if key(x) then update(x) else x))
  {
    if rows != [] {
      var r := UpdateWhere(rows, key, update);
      assert r[1..] == UpdateWhere(rows[1..], key, update);
      FindUpdateWhere(rows[1..], key, update, other);
    }
  }

  /**
   * A find-or-create whose created row satisfies the key afterwards finds
   * the row it returned; it adds at most that one row, and adds it exactly
   * when no row matched.
   */
  lemma FindOrCreateFinds<T>(rows: seq<T>, key: T -> bool, create: T)
    requires key(create)
    ensures var w := FindOrCreate(rows, key, create);
      && Find(w.rows, key) == Some(w.row)
      && rows <= w.rows && |w.rows| <= |rows| + 1
      && (w.rows == rows <==> exists x :: x in rows && key(x))
  {
    FindAppend(rows, key, create);
  }

  /** Running a find-or-create a second time creates nothing and returns the same row. */
  lemma FindOrCreateOnce<T>(rows: seq<T>, key: T -> bool, create: T, create': T)
    requires key(create)
    ensures var w := FindOrCreate(rows, key, create);
      FindOrCreate(w.rows, key, create') == w
  {
    FindOrCreateFinds(rows, key, create);
  }

  /** A find-or-create leaves what a lookup by a key its created row fails finds. */
  lemma FindOrCreateKeepsOther<T>(rows: seq<T>, key: T -> bool, create: T, other: T -> bool)
    requires !other(create)
    ensures Find(FindOrCreate(rows, key, create).rows, other) == Find(rows, other)
  {
    FindAppend(rows, other, create);
  }

  /**
   * An upsert whose update keeps the key, and whose created row satisfies
   * it, afterwards finds the row it returned; it adds a row exactly when no
   * row matched.
   */
  lemma UpsertFinds<T>(rows: seq<T>, key: T -> bool, update: T -> T, create: T)
    requires forall x :: key(update(x)) == key(x)
    requires key(create)
    ensures var w := Upsert(rows, key, update, create);
      && Find(w.rows, key) == Some(w.row)
      && |w.rows| == (if exists x :: x in rows && key(x) then |rows| else |rows| + 1)
  {
    FindUpdateWhere(rows, key, update, key);
    FindAppend(rows, key, create);
  }

  /**
   * An upsert leaves what a lookup by another key finds, when that key
   * selects none of the rows the upsert updates or creates.
   */
  lemma UpsertKeepsOther<T>(rows: seq<T>, key: T -> bool, update: T -> T, create: T, other: T -> bool)
    requires forall x :: other(update(x)) == other(x)
    requires forall x :: key(x) ==> !other(x)
    requires !other(create)
    ensures Find(Upsert(rows, key, update, create).rows, other) == Find(rows, other)
  {
    FindUpdateWhere(rows, key, update, other);
    FindAppend(rows, other, create);
  }

  /**
   * Running an upsert a second time changes nothing and returns the same
   * row, when its update keeps the key, applying it twice is applying it
   * once, and it leaves the created row as it is.
   */
  lemma UpsertOnce<T>(rows: seq<T>, key: T -> bool, update: T -> T, create: T, create': T)
    requires forall x :: key(update(x)) == key(x)
    requires forall x :: update(update(x)) == update(x)
    requires key(create) && update(create) == create
    ensures var w := Upsert(rows, key, update, create);
      Upsert(w.rows, key, update, create') == w
  {
    var w := Upsert(rows, key, update, create);
    UpsertFinds(rows, key, update, create);
    var again := UpdateWhere(w.rows, key, update);
    forall i | 0 <= i < |w.rows|
      ensures again[i] == w.rows[i]
    {
      if Find(rows, key).None? {
        if i < |rows| {
          assert w.rows[i] == rows[i] && rows[i] in rows;
        }
      }
    }
    assert again == w.rows;
  }

  /** No row occurs twice: the composite primary key of a join table. */
  predicate DistinctRows<T(==)>(rows: seq<T>)
  {
    forall i, j :: 0 <= i < j < |rows| ==> rows[i] != rows[j]
  }

  /** An upsert of a join row keyed by both of its columns, with an empty update. */
  function Link<T(==)>(rows: seq<T>, row: T): seq<T>
  {
    FindOrCreate(rows, (y: T) => y == row, row).rows
  }

  /**
   * After a join-row upsert the row is there, nothing else was added, a row
   * already there changes nothing, and no row comes to occur twice.
   */
  lemma LinkMeaning<T>(rows: seq<T>, row: T)
    ensures forall x :: x in Link(rows, row) <==> x in rows || x == row
    ensures row in rows ==> Link(rows, row) == rows
    ensures DistinctRows(rows) ==> DistinctRows(Link(rows, row))
  {
    FindOrCreateFinds(rows, (y: T) => y == row, row);
    if DistinctRows(rows) && Link(rows, row) != rows {
      AppendKeepsUnique(rows, row, (y: T) => y);
    }
  }

  // ---------------------------------------------------------------------
  // The seed's writes
  // ---------------------------------------------------------------------

  /** `permission.upsert` on the unique name, refreshing the description. */
  function UpsertPermission(rows: seq<Permission>, spec: PermissionSpec, newId: string): Written<Permission>
  {
    Upsert(rows, (p: Permission) => p.name == spec.name,
           (p: Permission) => p.(description := Some(spec.description)),
           Permission(newId, spec.name, Some(spec.description)))
  }

  /** A permission row with this id and name is stored. */
  predicate Stored(rows: seq<Permission>, p: Permission)
  {
    exists q :: q in rows && q.id == p.id && q.name == p.name
  }

  /**
   * A permission upsert returns a stored row named as the specification
   * says, and keeps every stored id and name.
   */
  lemma UpsertPermissionStores(rows: seq<Permission>, spec: PermissionSpec, newId: string)
    ensures var w := UpsertPermission(rows, spec, newId);
      && w.row.name == spec.name && Stored(w.rows, w.row)
      && forall p :: Stored(rows, p) ==> Stored(w.rows, p)
  {
    var key := (p: Permission) => p.name == spec.name;
    var update := (p: Permission) => p.(description := Some(spec.description));
    var w := UpsertPermission(rows, spec, newId);
    UpsertFinds(rows, key, update, Permission(newId, spec.name, Some(spec.description)));
    forall p | Stored(rows, p)
      ensures Stored(w.rows, p)
    {
      var q :| q in rows && q.id == p.id && q.name == p.name;
      var i :| 0 <= i < |rows| && rows[i] == q;
      assert w.rows[i].id == p.id && w.rows[i].name == p.name;
    }
  }

  /**
   * The catalogue's upserts, one after another in catalogue order (the
   * source issues them together; their keys are distinct). Creation
   * number `k` takes the identifier `newId(k)`.
   */
  function UpsertPermissions(rows: seq<Permission>, specs: seq<PermissionSpec>, newId: nat -> string)
    : (seq<Permission>, seq<Permission>)
    decreases |specs|
  {
    if specs == [] then ([], rows)
    else
      var (ps, rs) := UpsertPermissions(rows, specs[..|specs| - 1], newId);
      var w := UpsertPermission(rs, specs[|specs| - 1], newId(|specs| - 1));
      (ps + [w.row], w.rows)
  }

  /** The catalogue's upserts return one row per entry, named as the entry is. */
  lemma {:induction false} UpsertPermissionsNames(rows: seq<Permission>, specs: seq<PermissionSpec>,
                                                   newId: nat -> string)
    ensures |UpsertPermissions(rows, specs, newId).0| == |specs|
    ensures forall i :: 0 <= i < |specs| ==> UpsertPermissions(rows, specs, newId).0[i].name == specs[i].name
    decreases |specs|
  {
    if specs != [] {
      var init, last := specs[..|specs| - 1], specs[|specs| - 1];
      var prev := UpsertPermissions(rows, init, newId);
      var w := UpsertPermission(prev.1, last, newId(|specs| - 1));
      assert UpsertPermissions(rows, specs, newId).0 == prev.0 + [w.row];
      UpsertPermissionsNames(rows, init, newId);
      UpsertPermissionStores(prev.1, last, newId(|specs| - 1));
      forall i | 0 <= i < |specs|
        ensures (prev.0 + [w.row])[i].name == specs[i].name
      {
        if i < |init| {
          assert (prev.0 + [w.row])[i] == prev.0[i] && init[i] == specs[i];
        }
      }
    }
  }

  /**
   * Every row the catalogue's upserts return is stored afterwards, and so
   * is every id and name stored before.
   */
  lemma {:induction false} UpsertPermissionsStore(rows: seq<Permission>, specs: seq<PermissionSpec>,
                                                   newId: nat -> string)
    ensures forall i :: 0 <= i < |UpsertPermissions(rows, specs, newId).0| ==>
              Stored(UpsertPermissions(rows, specs, newId).1, UpsertPermissions(rows, specs, newId).0[i])
    ensures forall p :: Stored(rows, p) ==> Stored(UpsertPermissions(rows, specs, newId).1, p)
    decreases |specs|
  {
    if specs != [] {
      var init, last := specs[..|specs| - 1], specs[|specs| - 1];
      var prev := UpsertPermissions(rows, init, newId);
      var w := UpsertPermission(prev.1, last, newId(|specs| - 1));
      assert UpsertPermissions(rows, specs, newId) == (prev.0 + [w.row], w.rows);
      UpsertPermissionsStore(rows, init, newId);
      UpsertPermissionStores(prev.1, last, newId(|specs| - 1));
      StoredAfterAppend(prev.0, prev.1, w.row, w.rows);
    }
  }

  /**
   * One more upsert keeps the earlier returned rows stored and adds its
   * own to the returned ones.
   */
  lemma StoredAfterAppend(ps: seq<Permission>, rs: seq<Permission>, row: Permission, rs': seq<Permission>)
    requires forall i :: 0 <= i < |ps| ==> Stored(rs, ps[i])
    requires forall p :: Stored(rs, p) ==> Stored(rs', p)
    requires Stored(rs', row)
    ensures forall i :: 0 <= i < |ps| + 1 ==> Stored(rs', (ps + [row])[i])
  {
    forall i | 0 <= i < |ps| + 1
      ensures Stored(rs', (ps + [row])[i])
    {
      if i < |ps| {
        assert (ps + [row])[i] == ps[i] && Stored(rs, ps[i]);
      }
    }
  }

  /** The permissions among `perms` whose names are in `names`: the source's filter. */
  function Holding(perms: seq<Permission>, names: seq<string>): seq<Permission>
  {
    if perms == [] then []
    else Holding(perms[..|perms| - 1], names)
         + (if perms[|perms| - 1].name in names then [perms[|perms| - 1]] else [])
  }

  /** The filter keeps exactly the permissions named in `names`. */
  lemma {:induction false} HoldingMeaning(perms: seq<Permission>, names: seq<string>)
    ensures forall p :: p in Holding(perms, names) <==> p in perms && p.name in names
  {
    if perms != [] {
      var init := perms[..|perms| - 1];
      assert perms == init + [perms[|perms| - 1]];
      HoldingMeaning(init, names);
    }
  }

  /** The role-permission upserts granting each of `perms` to `roleId`, one after another. */
  function GrantAll(rows: seq<RolePermission>, roleId: string, perms: seq<Permission>): seq<RolePermission>
    decreases |perms|
  {
    if perms == [] then rows
    else Link(GrantAll(rows, roleId, perms[..|perms| - 1]), RolePermission(roleId, perms[|perms| - 1].id))
  }

  /**
   * After the grants every earlier row is still there and every grant is
   * there, the only rows added are those grants, and no row comes to occur
   * twice.
   */
  lemma {:induction false} GrantAllMeaning(rows: seq<RolePermission>, roleId: string, perms: seq<Permission>)
    ensures var r := GrantAll(rows, roleId, perms);
      && (forall x :: x in rows ==> x in r)
      && (forall p :: p in perms ==> RolePermission(roleId, p.id) in r)
      && (forall x :: x in r ==> x in rows || (x.roleId == roleId && exists p :: p in perms && p.id == x.permissionId))
      && (DistinctRows(rows) ==> DistinctRows(r))
    decreases |perms|
  {
    if perms != [] {
      var init := perms[..|perms| - 1];
      var last := perms[|perms| - 1];
      assert perms == init + [last];
      GrantAllMeaning(rows, roleId, init);
      LinkMeaning(GrantAll(rows, roleId, init), RolePermission(roleId, last.id));
    }
  }

  /** The lookup `findOrCreateGlobalRole` makes: a global role of no tenant with this name. */
  function GlobalRoleKey(name: string): Role -> bool
  {
    (r: Role) => r.name == name && r.tenantId.None? && r.isGlobal
  }

  /**
   * The unique key on role names refuses the `create` of
   * `findOrCreateGlobalRole`: no global role of no tenant has the name, but
   * another role (a tenant's, or one not marked global) holds it.
   */
  predicate RoleNameTaken(rows: seq<Role>, name: string)
  {
    Find(rows, GlobalRoleKey(name)).None? && exists x :: x in rows && x.name == name
  }

  /** `findOrCreateGlobalRole`; `None` when the unique key on role names refuses the create. */
  function GlobalRole(rows: seq<Role>, name: string, description: string, newId: string): Option<Written<Role>>
  {
    if RoleNameTaken(rows, name) then None
    else Some(FindOrCreate(rows, GlobalRoleKey(name), Role(newId, name, Some(description), true, None)))
  }

  /**
   * `findOrCreateGlobalRole` fails exactly when no global role of no tenant
   * has the name and another role holds it. Otherwise it returns a global
   * role of no tenant with the requested name, creates at most one row, and
   * a second call with the same name creates nothing and returns the same
   * role.
   */
  lemma GlobalRoleOnce(rows: seq<Role>, name: string, description: string, newId: string,
                       description': string, newId': string)
    ensures GlobalRole(rows, name, description, newId).None? <==>
              (forall x :: x in rows ==> !(x.name == name && x.tenantId.None? && x.isGlobal))
              && exists x :: x in rows && x.name == name
    ensures GlobalRole(rows, name, description, newId).Some? ==>
      var w := GlobalRole(rows, name, description, newId).value;
      && Find(w.rows, GlobalRoleKey(name)) == Some(w.row)
      && w.row in w.rows && w.row.name == name && w.row.isGlobal && w.row.tenantId.None?
      && rows <= w.rows && |w.rows| <= |rows| + 1
      && GlobalRole(w.rows, name, description', newId') == Some(w)
  {
    var create := Role(newId, name, Some(description), true, None);
    FindOrCreateFinds(rows, GlobalRoleKey(name), create);
    FindOrCreateOnce(rows, GlobalRoleKey(name), create, Role(newId', name, Some(description'), true, None));
  }

  /** No two roles share a name: the unique key on role names. */
  predicate DistinctNames(rows: seq<Role>)
  {
    forall i, j :: 0 <= i < j < |rows| ==> rows[i].name != rows[j].name
  }

  /**
   * A `findOrCreateGlobalRole` that succeeds keeps role names unique: it
   * creates only when no row holds the name.
   */
  lemma GlobalRoleKeepsNamesDistinct(rows: seq<Role>, name: string, description: string, newId: string)
    requires DistinctNames(rows)
    ensures GlobalRole(rows, name, description, newId).Some? ==>
              DistinctNames(GlobalRole(rows, name, description, newId).value.rows)
  {
    var create := Role(newId, name, Some(description), true, None);
    if GlobalRole(rows, name, description, newId).Some? && Find(rows, GlobalRoleKey(name)).None? {
      var w := rows + [create];
      assert GlobalRole(rows, name, description, newId).value.rows == w;
      forall i, j | 0 <= i < j < |w| ensures w[i].name != w[j].name {
        if j == |rows| {
          assert w[i] in rows;
        }
      }
    }
  }

  /**
   * A `findOrCreateGlobalRole` leaves the outcome of another name's
   * lookup and create as it was.
   */
  lemma GlobalRoleKeepsOtherNames(rows: seq<Role>, name: string, description: string, newId: string,
                                  other: string)
    requires name != other
    requires GlobalRole(rows, name, description, newId).Some?
    ensures var w := GlobalRole(rows, name, description, newId).value;
      && Find(w.rows, GlobalRoleKey(other)) == Find(rows, GlobalRoleKey(other))
      && (RoleNameTaken(w.rows, other) <==> RoleNameTaken(rows, other))
  {
    var create := Role(newId, name, Some(description), true, None);
    FindOrCreateKeepsOther(rows, GlobalRoleKey(name), create, GlobalRoleKey(other));
    var w := GlobalRole(rows, name, description, newId).value;
    assert forall x :: x in w.rows ==> x in rows || x == create;
  }

  /** The lookup `findOrCreateGlobalThemeTemplate` makes. */
  function GlobalTemplateKey(name: string): ThemeTemplate -> bool
  {
    (x: ThemeTemplate) => x.name == name && x.tenantId.None? && x.isGlobal
  }

  /** `findOrCreateGlobalThemeTemplate`. */
  function GlobalTemplate(rows: seq<ThemeTemplate>, name: string, settings: ThemeFields, isDefault: bool, newId: string)
    : Written<ThemeTemplate>
  {
    FindOrCreate(rows, GlobalTemplateKey(name), ThemeTemplate(newId, name, settings, true, isDefault, None))
  }

  /**
   * `findOrCreateGlobalThemeTemplate` returns a global template of no tenant
   * with the requested name, creates at most one row, and a second call
   * with the same name creates nothing and returns the same template.
   */
  lemma GlobalTemplateOnce(rows: seq<ThemeTemplate>, name: string, settings: ThemeFields, isDefault: bool,
                           newId: string, settings': ThemeFields, isDefault': bool, newId': string)
    ensures var w := GlobalTemplate(rows, name, settings, isDefault, newId);
      && Find(w.rows, GlobalTemplateKey(name)) == Some(w.row)
      && w.row in w.rows && w.row.name == name && w.row.isGlobal && w.row.tenantId.None?
      && rows <= w.rows && |w.rows| <= |rows| + 1
      && GlobalTemplate(w.rows, name, settings', isDefault', newId') == w
  {
    var create := ThemeTemplate(newId, name, settings, true, isDefault, None);
    FindOrCreateFinds(rows, GlobalTemplateKey(name), create);
    FindOrCreateOnce(rows, GlobalTemplateKey(name), create, ThemeTemplate(newId', name, settings', true, isDefault', None));
  }

  const DefaultSlug := "default"

  function SlugKey(slug: string): Tenant -> bool
  {
    (x: Tenant) => x.slug == slug
  }

  /** The default tenant's upsert on its unique slug; its update is empty. */
  function DefaultTenant(rows: seq<Tenant>, newId: string, now: nat): Written<Tenant>
  {
    FindOrCreate(rows, SlugKey(DefaultSlug), Tenant(newId, "Default Organization", DefaultSlug, true, now))
  }

  function EmailKey(email: string): User -> bool
  {
    (u: User) => u.email == email
  }

  /**
   * A demo account's upsert on its unique email: an existing account gets
   * the super-admin flag and tenant the seed assigns and keeps everything
   * else, password included; a new one is created active with the hashed
   * demo password.
   */
  function SeedAccount(rows: seq<User>, email: string, name: string, hashedPassword: string,
                       superAdmin: bool, tenantId: Option<string>, newId: string, now: nat): Written<User>
  {
    Upsert(rows, EmailKey(email), AccountUpdate(superAdmin, tenantId),
           User(newId, email, hashedPassword, Some(name), true, superAdmin, tenantId, now))
  }

  /** The `update` part of an account upsert. */
  function AccountUpdate(superAdmin: bool, tenantId: Option<string>): User -> User
  {
    (u: User) => u.(isSuperAdmin := superAdmin, tenantId := tenantId)
  }

  /** The key of the settings table: the tenant and the setting's name. */
  function ThemeSettingKey(tenantId: string): Setting -> bool
  {
    (x: Setting) => x.tenantId == Some(tenantId) && x.key == "theme"
  }

  /** The theme value the seed stores for the default tenant. */
  const SeededTheme := ThemeFields(
    Some(JString("#0ea5e9")), Some(JString("#0284c7")), Some(JString("#0369a1")),
    Some(JString("#6366f1")), Some(JBool(false)), Some(JBool(false)))

  /** The settings of the global "Default Blue" template. */
  const BlueTemplate := ThemeFields(
    Some(JString("#0ea5e9")), None, None, Some(JString("#6366f1")), None, Some(JBool(false)))

  /** The theme setting's upsert on (tenant, key); its update is empty. */
  function ThemeSetting(rows: seq<Setting>, tenantId: string): Written<Setting>
  {
    FindOrCreate(rows, ThemeSettingKey(tenantId), Setting("theme", SeededTheme, Some(tenantId)))
  }

  /**
   * The theme setting's upsert leaves a setting found by its key, keeps the
   * rows before it, and changes nothing when run a second time.
   */
  lemma ThemeSettingOnce(rows: seq<Setting>, tenantId: string)
    ensures var w := ThemeSetting(rows, tenantId);
      && Find(w.rows, ThemeSettingKey(tenantId)) == Some(w.row)
      && rows <= w.rows && ThemeSetting(w.rows, tenantId) == w
  {
    var create := Setting("theme", SeededTheme, Some(tenantId));
    FindOrCreateFinds(rows, ThemeSettingKey(tenantId), create);
    FindOrCreateOnce(rows, ThemeSettingKey(tenantId), create, create);
  }

  // ---------------------------------------------------------------------
  // The whole seed
  // ---------------------------------------------------------------------

  const DemoPassword := "Admin123!"
  const SuperAdminEmail := "superadmin@example.com"
  const TenantAdminEmail := "admin@example.com"
  const TenantUserEmail := "user@example.com"

  /**
   * What the seed leaves behind, and the rows its steps returned. A refused
   * role create ends the script (`main` rejects and the process exits), with
   * the writes before it kept.
   */
  datatype Seeded =
    | Seeded(
        tables: Tables, permissions: seq<Permission>, tenant: Tenant,
        superAdminRole: Role, tenantAdminRole: Role, tenantUserRole: Role,
        superAdmin: User, tenantAdmin: User, tenantUser: User)
    | Aborted(tables: Tables, permissions: seq<Permission>, tenant: Tenant)

  /**
   * `main`, as one step from the tables before to the tables after. The
   * `k`-th row the seed may create takes the identifier `newId(k)`:
   * permissions 0 to 14, then the tenant, the three roles, the three
   * accounts and the template.
   */
  /** The three global roles and their grants, or the tables as a refused create left them. */
  datatype RoleStage =
    | RoleStage(superAdmin: Role, tenantAdmin: Role, tenantUser: Role,
                roles: seq<Role>, rolePermissions: seq<RolePermission>)
    | RolesRefused(roles: seq<Role>, rolePermissions: seq<RolePermission>)

  /** The roles and grants part of `main`: role 16 to 18 of `newId`. */
  function SeedRoles(roles: seq<Role>, rolePermissions: seq<RolePermission>, perms: seq<Permission>,
                     newId: nat -> string): RoleStage
  {
    match GlobalRole(roles, "super_admin", "Super Administrator with full system access", newId(16))
    case None => RolesRefused(roles, rolePermissions)
    case Some(sa) =>
      var rp1 := GrantAll(rolePermissions, sa.row.id, Holding(perms, SuperAdminPermissions));
      match GlobalRole(sa.rows, "tenant_admin", "Tenant Administrator with full tenant access", newId(17))
      case None => RolesRefused(sa.rows, rp1)
      case Some(ta) =>
        var rp2 := GrantAll(rp1, ta.row.id, Holding(perms, TenantAdminPermissions));
        match GlobalRole(ta.rows, "tenant_user", "Standard tenant user with read access", newId(18))
        case None => RolesRefused(ta.rows, rp2)
        case Some(tu) =>
          var rp3 := GrantAll(rp2, tu.row.id, Holding(perms, TenantUserPermissions));
          RoleStage(sa.row, ta.row, tu.row, tu.rows, rp3)
  }

  /** None of the seed's three role names is held by a role other than the global role of that name. */
  predicate SeedRoleNamesFree(roles: seq<Role>)
  {
    && !RoleNameTaken(roles, "super_admin")
    && !RoleNameTaken(roles, "tenant_admin")
    && !RoleNameTaken(roles, "tenant_user")
  }

  /**
   * The roles stage completes exactly when none of its three names is held
   * by another role beforehand; each create adds only its own name, so an
   * earlier create never blocks a later one. Role names stay unique either
   * way.
   */
  lemma SeedRolesCompletes(roles: seq<Role>, rolePermissions: seq<RolePermission>, perms: seq<Permission>,
                           newId: nat -> string)
    ensures SeedRoles(roles, rolePermissions, perms, newId).RoleStage? <==> SeedRoleNamesFree(roles)
    ensures DistinctNames(roles) ==> DistinctNames(SeedRoles(roles, rolePermissions, perms, newId).roles)
  {
    var d1, d2, d3 := "Super Administrator with full system access", "Tenant Administrator with full tenant access",
                      "Standard tenant user with read access";
    assert "super_admin"[0] != "tenant_admin"[0] && "super_admin"[0] != "tenant_user"[0];
    assert "tenant_admin"[7] != "tenant_user"[7];
    var sa := GlobalRole(roles, "super_admin", d1, newId(16));
    if DistinctNames(roles) {
      GlobalRoleKeepsNamesDistinct(roles, "super_admin", d1, newId(16));
    }
    if sa.Some? {
      GlobalRoleKeepsOtherNames(roles, "super_admin", d1, newId(16), "tenant_admin");
      GlobalRoleKeepsOtherNames(roles, "super_admin", d1, newId(16), "tenant_user");
      var ta := GlobalRole(sa.value.rows, "tenant_admin", d2, newId(17));
      if DistinctNames(sa.value.rows) {
        GlobalRoleKeepsNamesDistinct(sa.value.rows, "tenant_admin", d2, newId(17));
      }
      if ta.Some? {
        GlobalRoleKeepsOtherNames(sa.value.rows, "tenant_admin", d2, newId(17), "tenant_user");
        if DistinctNames(ta.value.rows) {
          GlobalRoleKeepsNamesDistinct(ta.value.rows, "tenant_user", d3, newId(18));
        }
      }
    }
  }

  /** The three demo accounts and their role links. */
  datatype AccountStage = AccountStage(superAdmin: User, tenantAdmin: User, tenantUser: User,
                                       users: seq<User>, userRoles: seq<UserRole>)

  /** The accounts part of `main`: account 19 to 21 of `newId`. */
  function SeedUsers(users: seq<User>, userRoles: seq<UserRole>, tenantId: string, r: RoleStage,
                     newId: nat -> string, now: nat): AccountStage
    requires r.RoleStage?
  {
    var hashed := Password.HashPassword(DemoPassword);
    var u1 := SeedAccount(users, SuperAdminEmail, "Super Administrator", hashed, true, None, newId(19), now);
    var ur1 := Link(userRoles, UserRole(u1.row.id, r.superAdmin.id));
    var u2 := SeedAccount(u1.rows, TenantAdminEmail, "Tenant Administrator", hashed, false, Some(tenantId), newId(20), now);
    var ur2 := Link(ur1, UserRole(u2.row.id, r.tenantAdmin.id));
    var u3 := SeedAccount(u2.rows, TenantUserEmail, "Regular User", hashed, false, Some(tenantId), newId(21), now);
    var ur3 := Link(ur2, UserRole(u3.row.id, r.tenantUser.id));
    AccountStage(u1.row, u2.row, u3.row, u3.rows, ur3)
  }

  /**
   * `main`, as one step from the tables before to the tables after. The
   * `k`-th row the seed may create takes the identifier `newId(k)`:
   * permissions 0 to 14, then the tenant, the three roles, the three
   * accounts and the template.
   */
  function SeedRun(t: Tables, now: nat, newId: nat -> string): Seeded
  {
    var (perms, permissionRows) := UpsertPermissions(t.permissions, AllPermissions, newId);
    var tenant := DefaultTenant(t.tenants, newId(15), now);
    var r := SeedRoles(t.roles, t.rolePermissions, perms, newId);
    if r.RolesRefused? then
      Aborted(t.(permissions := permissionRows, tenants := tenant.rows, roles := r.roles,
                 rolePermissions := r.rolePermissions),
              perms, tenant.row)
    else
      var a := SeedUsers(t.users, t.userRoles, tenant.row.id, r, newId, now);
      var setting := ThemeSetting(t.settings, tenant.row.id);
      var template := GlobalTemplate(t.themeTemplates, "Default Blue", BlueTemplate, true, newId(22));
      Seeded(
        t.(permissions := permissionRows, tenants := tenant.rows, roles := r.roles,
           rolePermissions := r.rolePermissions, users := a.users, userRoles := a.userRoles,
           settings := setting.rows, themeTemplates := template.rows),
        perms, tenant.row, r.superAdmin, r.tenantAdmin, r.tenantUser,
        a.superAdmin, a.tenantAdmin, a.tenantUser)
  }

  /**
   * The seed completes exactly when none of its three role names is held
   * by another role beforehand. When a role create is refused, the
   * permissions, the tenant and the earlier roles and grants are written,
   * and the accounts and theme rows are not; role names stay unique
   * either way.
   */
  lemma SeedCompletes(t: Tables, now: nat, newId: nat -> string)
    ensures SeedRun(t, now, newId).Seeded? <==> SeedRoleNamesFree(t.roles)
    ensures var s := SeedRun(t, now, newId);
      s.Aborted? ==> && s.tables.users == t.users && s.tables.userRoles == t.userRoles
                     && s.tables.settings == t.settings && s.tables.themeTemplates == t.themeTemplates
                     && s.tables.refreshTokens == t.refreshTokens
    ensures UniqueRoleNames(t) ==> UniqueRoleNames(SeedRun(t, now, newId).tables)
  {
    var perms := UpsertPermissions(t.permissions, AllPermissions, newId).0;
    SeedRolesCompletes(t.roles, t.rolePermissions, perms, newId);
  }

  /**
   * After the seed the three demo accounts are the users their email
   * addresses look up: the super-admin with the flag set and no tenant,
   * the other two without it and in the default tenant, which is the
   * tenant the slug "default" looks up. Each holds its role, and each role
   * is the global role of its name.
   */
  lemma SeedAccounts(t: Tables, now: nat, newId: nat -> string)
    requires SeedRun(t, now, newId).Seeded?
    ensures var s := SeedRun(t, now, newId);
      && TenantBySlug(s.tables, DefaultSlug) == Some(s.tenant)
      && UserByEmail(s.tables, SuperAdminEmail) == Some(s.superAdmin)
      && s.superAdmin.isSuperAdmin && s.superAdmin.tenantId.None?
      && UserByEmail(s.tables, TenantAdminEmail) == Some(s.tenantAdmin)
      && !s.tenantAdmin.isSuperAdmin && s.tenantAdmin.tenantId == Some(s.tenant.id)
      && UserByEmail(s.tables, TenantUserEmail) == Some(s.tenantUser)
      && !s.tenantUser.isSuperAdmin && s.tenantUser.tenantId == Some(s.tenant.id)
      && UserRole(s.superAdmin.id, s.superAdminRole.id) in s.tables.userRoles
      && UserRole(s.tenantAdmin.id, s.tenantAdminRole.id) in s.tables.userRoles
      && UserRole(s.tenantUser.id, s.tenantUserRole.id) in s.tables.userRoles
      && Find(s.tables.roles, GlobalRoleKey("super_admin")) == Some(s.superAdminRole)
      && Find(s.tables.roles, GlobalRoleKey("tenant_admin")) == Some(s.tenantAdminRole)
      && Find(s.tables.roles, GlobalRoleKey("tenant_user")) == Some(s.tenantUserRole)
  {
    var s := SeedRun(t, now, newId);
    var tenant := DefaultTenant(t.tenants, newId(15), now);
    var r := SeedRoles(t.roles, t.rolePermissions, s.permissions, newId);
    var a := SeedUsers(t.users, t.userRoles, tenant.row.id, r, newId, now);
    FindOrCreateFinds(t.tenants, SlugKey(DefaultSlug), Tenant(newId(15), "Default Organization", DefaultSlug, true, now));
    assert s.tenant == tenant.row && s.tables.tenants == tenant.rows;
    AccountsFound(t.users, t.userRoles, tenant.row.id, r, newId, now);
    RolesFound(t.roles, t.rolePermissions, s.permissions, newId);
  }

  /**
   * The account upserts, one after another, leave each account found by
   * its email, with the flags the seed gives it.
   */
  lemma AccountUpsertsFound(users: seq<User>, hashed: string, tenantId: string,
                            id1: string, id2: string, id3: string, now: nat)
    ensures var u1 := SeedAccount(users, SuperAdminEmail, "Super Administrator", hashed, true, None, id1, now);
      var u2 := SeedAccount(u1.rows, TenantAdminEmail, "Tenant Administrator", hashed, false, Some(tenantId), id2, now);
      var u3 := SeedAccount(u2.rows, TenantUserEmail, "Regular User", hashed, false, Some(tenantId), id3, now);
      && Find(u3.rows, EmailKey(SuperAdminEmail)) == Some(u1.row)
      && Find(u3.rows, EmailKey(TenantAdminEmail)) == Some(u2.row)
      && Find(u3.rows, EmailKey(TenantUserEmail)) == Some(u3.row)
      && u1.row.isSuperAdmin && u1.row.tenantId.None?
      && !u2.row.isSuperAdmin && u2.row.tenantId == Some(tenantId)
      && !u3.row.isSuperAdmin && u3.row.tenantId == Some(tenantId)
  {
    var k1, k2, k3 := EmailKey(SuperAdminEmail), EmailKey(TenantAdminEmail), EmailKey(TenantUserEmail);
    var f1, f2 := AccountUpdate(true, None), AccountUpdate(false, Some(tenantId));
    var c1 := User(id1, SuperAdminEmail, hashed, Some("Super Administrator"), true, true, None, now);
    var c2 := User(id2, TenantAdminEmail, hashed, Some("Tenant Administrator"), true, false, Some(tenantId), now);
    var c3 := User(id3, TenantUserEmail, hashed, Some("Regular User"), true, false, Some(tenantId), now);
    var u1 := Upsert(users, k1, f1, c1);
    var u2 := Upsert(u1.rows, k2, f2, c2);
    assert SuperAdminEmail[0] != TenantAdminEmail[0] && SuperAdminEmail[0] != TenantUserEmail[0];
    assert TenantAdminEmail[0] != TenantUserEmail[0];
    UpsertFinds(users, k1, f1, c1);
    UpsertKeepsOther(u1.rows, k2, f2, c2, k1);
    UpsertKeepsOther(u2.rows, k3, f2, c3, k1);
    UpsertFinds(u1.rows, k2, f2, c2);
    UpsertKeepsOther(u2.rows, k3, f2, c3, k2);
    UpsertFinds(u2.rows, k3, f2, c3);
  }

  /** The accounts stage: each account found by its email and linked to its role. */
  lemma AccountsFound(users: seq<User>, userRoles: seq<UserRole>, tenantId: string, r: RoleStage,
                      newId: nat -> string, now: nat)
    requires r.RoleStage?
    ensures var a := SeedUsers(users, userRoles, tenantId, r, newId, now);
      && Find(a.users, EmailKey(SuperAdminEmail)) == Some(a.superAdmin)
      && Find(a.users, EmailKey(TenantAdminEmail)) == Some(a.tenantAdmin)
      && Find(a.users, EmailKey(TenantUserEmail)) == Some(a.tenantUser)
      && a.superAdmin.isSuperAdmin && a.superAdmin.tenantId.None?
      && !a.tenantAdmin.isSuperAdmin && a.tenantAdmin.tenantId == Some(tenantId)
      && !a.tenantUser.isSuperAdmin && a.tenantUser.tenantId == Some(tenantId)
      && UserRole(a.superAdmin.id, r.superAdmin.id) in a.userRoles
      && UserRole(a.tenantAdmin.id, r.tenantAdmin.id) in a.userRoles
      && UserRole(a.tenantUser.id, r.tenantUser.id) in a.userRoles
      && (DistinctRows(userRoles) ==> DistinctRows(a.userRoles))
  {
    var hashed := Password.HashPassword(DemoPassword);
    AccountUpsertsFound(users, hashed, tenantId, newId(19), newId(20), newId(21), now);
    var u1 := SeedAccount(users, SuperAdminEmail, "Super Administrator", hashed, true, None, newId(19), now);
    var ur1 := Link(userRoles, UserRole(u1.row.id, r.superAdmin.id));
    var u2 := SeedAccount(u1.rows, TenantAdminEmail, "Tenant Administrator", hashed, false, Some(tenantId), newId(20), now);
    var ur2 := Link(ur1, UserRole(u2.row.id, r.tenantAdmin.id));
    var u3 := SeedAccount(u2.rows, TenantUserEmail, "Regular User", hashed, false, Some(tenantId), newId(21), now);
    LinkMeaning(userRoles, UserRole(u1.row.id, r.superAdmin.id));
    LinkMeaning(ur1, UserRole(u2.row.id, r.tenantAdmin.id));
    LinkMeaning(ur2, UserRole(u3.row.id, r.tenantUser.id));
  }

  /** The three role lookups, one after another, leave each role found by its key. */
  lemma RolesFound(roles: seq<Role>, rolePermissions: seq<RolePermission>, perms: seq<Permission>,
                   newId: nat -> string)
    requires SeedRoles(roles, rolePermissions, perms, newId).RoleStage?
    ensures var r := SeedRoles(roles, rolePermissions, perms, newId);
      && Find(r.roles, GlobalRoleKey("super_admin")) == Some(r.superAdmin)
      && Find(r.roles, GlobalRoleKey("tenant_admin")) == Some(r.tenantAdmin)
      && Find(r.roles, GlobalRoleKey("tenant_user")) == Some(r.tenantUser)
  {
    var k1, k2, k3 := GlobalRoleKey("super_admin"), GlobalRoleKey("tenant_admin"), GlobalRoleKey("tenant_user");
    var c1 := Role(newId(16), "super_admin", Some("Super Administrator with full system access"), true, None);
    var c2 := Role(newId(17), "tenant_admin", Some("Tenant Administrator with full tenant access"), true, None);
    var c3 := Role(newId(18), "tenant_user", Some("Standard tenant user with read access"), true, None);
    var sa := FindOrCreate(roles, k1, c1);
    var ta := FindOrCreate(sa.rows, k2, c2);
    assert "super_admin"[0] != "tenant_admin"[0] && "super_admin"[0] != "tenant_user"[0];
    assert "tenant_admin"[7] != "tenant_user"[7];
    FindOrCreateFinds(roles, k1, c1);
    FindOrCreateKeepsOther(sa.rows, k2, c2, k1);
    FindOrCreateKeepsOther(ta.rows, k3, c3, k1);
    FindOrCreateFinds(sa.rows, k2, c2);
    FindOrCreateKeepsOther(ta.rows, k3, c3, k2);
    FindOrCreateFinds(ta.rows, k3, c3);
  }

  /**
   * The seed grants super_admin every catalogue permission, tenant_admin
   * every permission of its set and tenant_user every permission of its
   * set: for each name, a stored permission row of that name is linked to
   * the role.
   */
  lemma SeedGrants(t: Tables, now: nat, newId: nat -> string)
    requires SeedRun(t, now, newId).Seeded?
    ensures var s := SeedRun(t, now, newId);
      && (forall n :: n in SuperAdminPermissions ==> Granted(s, s.superAdminRole, n))
      && (forall n :: n in TenantAdminPermissions ==> Granted(s, s.tenantAdminRole, n))
      && (forall n :: n in TenantUserPermissions ==> Granted(s, s.tenantUserRole, n))
  {
    var s := SeedRun(t, now, newId);
    SeedStoresCatalogue(t, now, newId);
    RoleGrants(t.roles, t.rolePermissions, s.permissions, newId);
    assert s.tables.rolePermissions == SeedRoles(t.roles, t.rolePermissions, s.permissions, newId).rolePermissions;
    PermissionSetsNested();
    GrantedByName(s, s.superAdminRole, SuperAdminPermissions);
    GrantedByName(s, s.tenantAdminRole, TenantAdminPermissions);
    GrantedByName(s, s.tenantUserRole, TenantUserPermissions);
  }

  /**
   * When the upserts returned one stored row per catalogue entry and
   * `role` is linked to each of them named in `names`, every name of
   * `names` from the catalogue is granted to `role`.
   */
  lemma GrantedByName(s: Seeded, role: Role, names: seq<string>)
    requires |s.permissions| == |AllPermissions|
    requires forall i :: 0 <= i < |AllPermissions| ==>
               s.permissions[i].name == AllPermissions[i].name && Stored(s.tables.permissions, s.permissions[i])
    requires forall n :: n in names ==> n in SuperAdminPermissions
    requires forall p :: p in s.permissions && p.name in names ==>
               RolePermission(role.id, p.id) in s.tables.rolePermissions
    ensures forall n :: n in names ==> Granted(s, role, n)
  {
    forall n | n in names
      ensures Granted(s, role, n)
    {
      var i := NamedRow(s.permissions, AllPermissions, n);
      assert s.permissions[i] in s.permissions;
    }
  }

  /** The row returned for the catalogue entry named `n`. */
  lemma NamedRow(perms: seq<Permission>, specs: seq<PermissionSpec>, n: string) returns (i: nat)
    requires |perms| == |specs| && forall i :: 0 <= i < |specs| ==> perms[i].name == specs[i].name
    requires n in Names(specs)
    ensures i < |perms| && perms[i].name == n
  {
    i :| 0 <= i < |specs| && Names(specs)[i] == n;
  }

  /**
   * The permission upserts return one row per catalogue entry, named as
   * the entry is, each stored in the permissions table afterwards.
   */
  lemma SeedStoresCatalogue(t: Tables, now: nat, newId: nat -> string)
    ensures var s := SeedRun(t, now, newId);
      && |s.permissions| == |AllPermissions|
      && (forall i :: 0 <= i < |AllPermissions| ==>
            s.permissions[i].name == AllPermissions[i].name && Stored(s.tables.permissions, s.permissions[i]))
  {
    var s := SeedRun(t, now, newId);
    var r := UpsertPermissions(t.permissions, AllPermissions, newId);
    assert s.permissions == r.0 && s.tables.permissions == r.1;
    UpsertPermissionsNames(t.permissions, AllPermissions, newId);
    UpsertPermissionsStore(t.permissions, AllPermissions, newId);
  }

  /** The roles stage links each role to every permission among `perms` of its set. */
  lemma RoleGrants(roles: seq<Role>, rolePermissions: seq<RolePermission>, perms: seq<Permission>,
                   newId: nat -> string)
    ensures var r := SeedRoles(roles, rolePermissions, perms, newId);
      r.RoleStage? ==>
      && (forall p :: p in perms && p.name in SuperAdminPermissions ==>
            RolePermission(r.superAdmin.id, p.id) in r.rolePermissions)
      && (forall p :: p in perms && p.name in TenantAdminPermissions ==>
            RolePermission(r.tenantAdmin.id, p.id) in r.rolePermissions)
      && (forall p :: p in perms && p.name in TenantUserPermissions ==>
            RolePermission(r.tenantUser.id, p.id) in r.rolePermissions)
    ensures DistinctRows(rolePermissions) ==> DistinctRows(SeedRoles(roles, rolePermissions, perms, newId).rolePermissions)
  {
    HoldingMeaning(perms, SuperAdminPermissions);
    HoldingMeaning(perms, TenantAdminPermissions);
    HoldingMeaning(perms, TenantUserPermissions);
    var sa := GlobalRole(roles, "super_admin", "Super Administrator with full system access", newId(16));
    if sa.Some? {
      var rp1 := GrantAll(rolePermissions, sa.value.row.id, Holding(perms, SuperAdminPermissions));
      GrantAllMeaning(rolePermissions, sa.value.row.id, Holding(perms, SuperAdminPermissions));
      var ta := GlobalRole(sa.value.rows, "tenant_admin", "Tenant Administrator with full tenant access", newId(17));
      if ta.Some? {
        var rp2 := GrantAll(rp1, ta.value.row.id, Holding(perms, TenantAdminPermissions));
        GrantAllMeaning(rp1, ta.value.row.id, Holding(perms, TenantAdminPermissions));
        var tu := GlobalRole(ta.value.rows, "tenant_user", "Standard tenant user with read access", newId(18));
        if tu.Some? {
          GrantAllMeaning(rp2, tu.value.row.id, Holding(perms, TenantUserPermissions));
        }
      }
    }
  }

  /** A stored permission named `name`, returned by the seed's upserts, is linked to `role`. */
  predicate Granted(s: Seeded, role: Role, name: string)
  {
    exists p :: p in s.permissions && p.name == name
      && Stored(s.tables.permissions, p) && RolePermission(role.id, p.id) in s.tables.rolePermissions
  }

  /**
   * The seed adds no duplicate rows to either join table: every write to
   * them is an upsert on the row's own composite key, so running the seed
   * any number of times keeps both tables free of repeats.
   */
  lemma SeedKeepsJoinRowsDistinct(t: Tables, now: nat, newId: nat -> string)
    requires DistinctRows(t.userRoles) && DistinctRows(t.rolePermissions)
    ensures var s := SeedRun(t, now, newId);
      DistinctRows(s.tables.userRoles) && DistinctRows(s.tables.rolePermissions)
  {
    var s := SeedRun(t, now, newId);
    var tenant := DefaultTenant(t.tenants, newId(15), now);
    var r := SeedRoles(t.roles, t.rolePermissions, s.permissions, newId);
    RoleGrants(t.roles, t.rolePermissions, s.permissions, newId);
    if r.RoleStage? {
      AccountsFound(t.users, t.userRoles, tenant.row.id, r, newId, now);
    }
  }

  /**
   * The default tenant has its theme setting and the global "Default Blue"
   * template exists afterwards; a setting or template already there is
   * kept as it was.
   */
  lemma SeedThemeRows(t: Tables, now: nat, newId: nat -> string)
    requires SeedRun(t, now, newId).Seeded?
    ensures var s := SeedRun(t, now, newId);
      && Find(s.tables.settings, ThemeSettingKey(s.tenant.id)).Some?
      && Find(s.tables.themeTemplates, GlobalTemplateKey("Default Blue")).Some?
      && t.settings <= s.tables.settings && t.themeTemplates <= s.tables.themeTemplates
  {
    var s := SeedRun(t, now, newId);
    ThemeSettingOnce(t.settings, s.tenant.id);
    GlobalTemplateOnce(t.themeTemplates, "Default Blue", BlueTemplate, true, newId(22), BlueTemplate, true, newId(22));
  }

  /** The stored theme is the server's default theme, which its schema accepts. */
  lemma SeededThemeIsDefault()
    ensures SeededTheme == DefaultThemeSettings() && ThemeSettingsAccepts(SeededTheme)
  {
  }

  // ---------------------------------------------------------------------
  // The seed script, step by step against the database
  // ---------------------------------------------------------------------

  /** `findOrCreateGlobalRole`, against the roles table. */
  method FindOrCreateGlobalRole(db: Database, name: string, description: string, newId: string)
    returns (role: Option<Role>)
    modifies db`roles
    ensures GlobalRole(old(db.roles), name, description, newId).None? ==>
              role.None? && db.Snapshot() == old(db.Snapshot())
    ensures GlobalRole(old(db.roles), name, description, newId).Some? ==>
              var w := GlobalRole(old(db.roles), name, description, newId).value;
              role == Some(w.row) && db.Snapshot() == old(db.Snapshot()).(roles := w.rows)
  {
    var found := Find(db.roles, GlobalRoleKey(name));
    if found.Some? {
      role := found;
    } else if exists x :: x in db.roles && x.name == name {
      role := None;
    } else {
      var created := Role(newId, name, Some(description), true, None);
      db.roles := db.roles + [created];
      role := Some(created);
    }
  }

  /** `findOrCreateGlobalThemeTemplate`, against the templates table. */
  method FindOrCreateGlobalThemeTemplate(db: Database, name: string, settings: ThemeFields, isDefault: bool,
                                         newId: string)
    returns (template: ThemeTemplate)
    modifies db`themeTemplates
    ensures template == GlobalTemplate(old(db.themeTemplates), name, settings, isDefault, newId).row
    ensures db.Snapshot()
      == old(db.Snapshot()).(themeTemplates := GlobalTemplate(old(db.themeTemplates), name, settings, isDefault, newId).rows)
  {
    var found := Find(db.themeTemplates, GlobalTemplateKey(name));
    if found.Some? {
      template := found.value;
    } else {
      template := ThemeTemplate(newId, name, settings, true, isDefault, None);
      db.themeTemplates := db.themeTemplates + [template];
    }
  }

  /** The default tenant's upsert on its slug, against the tenants table. */
  method UpsertDefaultTenant(db: Database, newId: string, now: nat) returns (tenant: Tenant)
    modifies db`tenants
    ensures tenant == DefaultTenant(old(db.tenants), newId, now).row
    ensures db.Snapshot() == old(db.Snapshot()).(tenants := DefaultTenant(old(db.tenants), newId, now).rows)
  {
    var w := DefaultTenant(db.tenants, newId, now);
    tenant := w.row;
    db.tenants := w.rows;
  }

  /** The tenant's theme setting upsert, against the settings table. */
  method UpsertThemeSetting(db: Database, tenantId: string) returns (setting: Setting)
    modifies db`settings
    ensures setting == ThemeSetting(old(db.settings), tenantId).row
    ensures db.Snapshot() == old(db.Snapshot()).(settings := ThemeSetting(old(db.settings), tenantId).rows)
  {
    var w := ThemeSetting(db.settings, tenantId);
    setting := w.row;
    db.settings := w.rows;
  }

  /** The catalogue's upserts, entry by entry, collecting the returned rows. */
  method UpsertCatalogue(db: Database, newId: nat -> string) returns (perms: seq<Permission>)
    modifies db`permissions
    ensures (perms, db.permissions) == UpsertPermissions(old(db.permissions), AllPermissions, newId)
    ensures db.Snapshot() == old(db.Snapshot()).(permissions := db.permissions)
  {
    perms := [];
    for i := 0 to |AllPermissions|
      invariant (perms, db.permissions) == UpsertPermissions(old(db.permissions), AllPermissions[..i], newId)
    {
      assert AllPermissions[..i + 1][..i] == AllPermissions[..i];
      var w := UpsertPermission(db.permissions, AllPermissions[i], newId(i));
      perms := perms + [w.row];
      db.permissions := w.rows;
    }
    assert AllPermissions[..|AllPermissions|] == AllPermissions;
  }

  /** The role-permission upserts granting each of `perms` to `roleId`, one by one. */
  method GrantPermissions(db: Database, roleId: string, perms: seq<Permission>)
    modifies db`rolePermissions
    ensures db.Snapshot() == old(db.Snapshot()).(rolePermissions := GrantAll(old(db.rolePermissions), roleId, perms))
  {
    for i := 0 to |perms|
      invariant db.rolePermissions == GrantAll(old(db.rolePermissions), roleId, perms[..i])
    {
      assert perms[..i + 1][..i] == perms[..i];
      db.rolePermissions := Link(db.rolePermissions, RolePermission(roleId, perms[i].id));
    }
    assert perms[..|perms|] == perms;
  }

  /** The roles and their grants, in the script's order. */
  method SeedRolesStep(db: Database, perms: seq<Permission>, newId: nat -> string) returns (r: RoleStage)
    modifies db`roles, db`rolePermissions
    ensures r == SeedRoles(old(db.roles), old(db.rolePermissions), perms, newId)
    ensures db.Snapshot() == old(db.Snapshot()).(roles := r.roles, rolePermissions := r.rolePermissions)
  {
    var superAdminRole := FindOrCreateGlobalRole(db, "super_admin", "Super Administrator with full system access", newId(16));
    if superAdminRole.None? {
      return RolesRefused(db.roles, db.rolePermissions);
    }
    GrantPermissions(db, superAdminRole.value.id, Holding(perms, SuperAdminPermissions));
    var tenantAdminRole := FindOrCreateGlobalRole(db, "tenant_admin", "Tenant Administrator with full tenant access", newId(17));
    if tenantAdminRole.None? {
      return RolesRefused(db.roles, db.rolePermissions);
    }
    GrantPermissions(db, tenantAdminRole.value.id, Holding(perms, TenantAdminPermissions));
    var tenantUserRole := FindOrCreateGlobalRole(db, "tenant_user", "Standard tenant user with read access", newId(18));
    if tenantUserRole.None? {
      return RolesRefused(db.roles, db.rolePermissions);
    }
    GrantPermissions(db, tenantUserRole.value.id, Holding(perms, TenantUserPermissions));
    r := RoleStage(superAdminRole.value, tenantAdminRole.value, tenantUserRole.value, db.roles, db.rolePermissions);
  }

  /** A demo account's upsert on its email, against the users table. */
  method UpsertAccount(db: Database, email: string, name: string, hashed: string, superAdmin: bool,
                       tenantId: Option<string>, newId: string, now: nat)
    returns (user: User)
    modifies db`users
    ensures user == SeedAccount(old(db.users), email, name, hashed, superAdmin, tenantId, newId, now).row
    ensures db.Snapshot()
      == old(db.Snapshot()).(users := SeedAccount(old(db.users), email, name, hashed, superAdmin, tenantId, newId, now).rows)
  {
    var w := SeedAccount(db.users, email, name, hashed, superAdmin, tenantId, newId, now);
    user := w.row;
    db.users := w.rows;
  }

  /** A user-role upsert on its composite key, against the user-roles table. */
  method LinkUserRole(db: Database, link: UserRole)
    modifies db`userRoles
    ensures db.Snapshot() == old(db.Snapshot()).(userRoles := Link(old(db.userRoles), link))
  {
    db.userRoles := Link(db.userRoles, link);
  }

  /** The demo accounts and their role links, in the script's order. */
  method SeedUsersStep(db: Database, tenantId: string, r: RoleStage, newId: nat -> string, now: nat)
    returns (a: AccountStage)
    requires r.RoleStage?
    modifies db`users, db`userRoles
    ensures a == SeedUsers(old(db.users), old(db.userRoles), tenantId, r, newId, now)
    ensures db.Snapshot() == old(db.Snapshot()).(users := a.users, userRoles := a.userRoles)
  {
    var hashed := Password.HashPassword(DemoPassword);
    var superAdmin := UpsertAccount(db, SuperAdminEmail, "Super Administrator", hashed, true, None, newId(19), now);
    LinkUserRole(db, UserRole(superAdmin.id, r.superAdmin.id));
    var tenantAdmin := UpsertAccount(db, TenantAdminEmail, "Tenant Administrator", hashed, false, Some(tenantId),
                                     newId(20), now);
    LinkUserRole(db, UserRole(tenantAdmin.id, r.tenantAdmin.id));
    var tenantUser := UpsertAccount(db, TenantUserEmail, "Regular User", hashed, false, Some(tenantId), newId(21), now);
    LinkUserRole(db, UserRole(tenantUser.id, r.tenantUser.id));
    a := AccountStage(superAdmin, tenantAdmin, tenantUser, db.users, db.userRoles);
  }

  /** `main`: the seed's writes in the script's order. */
  method RunSeed(db: Database, now: nat, newId: nat -> string) returns (s: Seeded)
    modifies db
    ensures s == SeedRun(old(db.Snapshot()), now, newId)
    ensures db.Snapshot() == s.tables
  {
    ghost var t := db.Snapshot();
    var perms := UpsertCatalogue(db, newId);
    ghost var permissionRows := db.permissions;
    var tenant := UpsertDefaultTenant(db, newId(15), now);
    ghost var tenantRows := db.tenants;
    var r := SeedRolesStep(db, perms, newId);
    if r.RolesRefused? {
      s := Aborted(db.Snapshot(), perms, tenant);
      SeedRunAborted(t, now, newId, perms, permissionRows, Written(tenant, tenantRows), r);
      return;
    }
    var a := SeedUsersStep(db, tenant.id, r, newId, now);
    var _ := UpsertThemeSetting(db, tenant.id);
    ghost var settings := db.settings;
    var _ := FindOrCreateGlobalThemeTemplate(db, "Default Blue", BlueTemplate, true, newId(22));
    s := Seeded(db.Snapshot(), perms, tenant, r.superAdmin, r.tenantAdmin, r.tenantUser,
                a.superAdmin, a.tenantAdmin, a.tenantUser);
    SeedRunParts(t, now, newId, perms, permissionRows, Written(tenant, tenantRows), r, a, settings,
                 db.themeTemplates);
  }

  /** `SeedRun` assembled from the results of its steps. */
  lemma SeedRunParts(t: Tables, now: nat, newId: nat -> string, perms: seq<Permission>,
                     permissionRows: seq<Permission>, tenant: Written<Tenant>, r: RoleStage, a: AccountStage,
                     settings: seq<Setting>, templates: seq<ThemeTemplate>)
    requires (perms, permissionRows) == UpsertPermissions(t.permissions, AllPermissions, newId)
    requires tenant == DefaultTenant(t.tenants, newId(15), now)
    requires r == SeedRoles(t.roles, t.rolePermissions, perms, newId) && r.RoleStage?
    requires a == SeedUsers(t.users, t.userRoles, tenant.row.id, r, newId, now)
    requires settings == ThemeSetting(t.settings, tenant.row.id).rows
    requires templates == GlobalTemplate(t.themeTemplates, "Default Blue", BlueTemplate, true, newId(22)).rows
    ensures SeedRun(t, now, newId) == Seeded(
      Tables(a.users, r.roles, permissionRows, a.userRoles, r.rolePermissions, tenant.rows, settings, templates,
             t.refreshTokens),
      perms, tenant.row, r.superAdmin, r.tenantAdmin, r.tenantUser, a.superAdmin, a.tenantAdmin, a.tenantUser)
  {
  }

  /** `SeedRun` assembled from the steps before a refused role create. */
  lemma SeedRunAborted(t: Tables, now: nat, newId: nat -> string, perms: seq<Permission>,
                       permissionRows: seq<Permission>, tenant: Written<Tenant>, r: RoleStage)
    requires (perms, permissionRows) == UpsertPermissions(t.permissions, AllPermissions, newId)
    requires tenant == DefaultTenant(t.tenants, newId(15), now)
    requires r == SeedRoles(t.roles, t.rolePermissions, perms, newId) && r.RolesRefused?
    ensures SeedRun(t, now, newId) == Aborted(
      Tables(t.users, r.roles, permissionRows, t.userRoles, r.rolePermissions, tenant.rows, t.settings,
             t.themeTemplates, t.refreshTokens),
      perms, tenant.row)
  {
  }
}
