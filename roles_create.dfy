/** `POST /api/roles` (server/api/roles/index.post.ts). */
module RolesCreate {
  import opened Wrappers
  import opened Http
  import opened Db
  import opened Schemas
  import Gate
  import Jwt
  import Permissions

  const NameTaken := HttpError(409, "Role with this name already exists")
  const RequiredPermission: string := "roles:create"

  datatype PermissionRef = PermissionRef(id: string, name: string)

  /** The created role as the response shows it, grants flattened to permissions. */
  datatype CreatedRole = CreatedRole(
    id: string, name: string, description: Option<string>, permissions: seq<PermissionRef>)

  datatype CreateRoleResponse = CreateRoleResponse(status: nat, data: CreatedRole)

  /** Every id names a permission and none repeats: the nested insert meets its keys. */
  predicate GrantablePermissions(t: Tables, permissionIds: seq<string>)
  {
    (forall i :: 0 <= i < |permissionIds| ==> PermissionById(t, permissionIds[i]).Some?)
    && Permissions.NoDuplicates(permissionIds)
  }

  /** One grant row per permission id, in order. */
  function Grants(roleId: string, permissionIds: seq<string>): (rows: seq<RolePermission>)
    ensures |rows| == |permissionIds|
    ensures forall i :: 0 <= i < |rows| ==> rows[i] == RolePermission(roleId, permissionIds[i])
  {
    seq(|permissionIds|, i requires 0 <= i < |permissionIds| => RolePermission(roleId, permissionIds[i]))
  }

  /** The id and name of each permission, in order. */
  function PermissionRefs(t: Tables, permissionIds: seq<string>): (refs: seq<PermissionRef>)
    requires GrantablePermissions(t, permissionIds)
    ensures |refs| == |permissionIds|
    ensures forall i :: 0 <= i < |refs| ==>
              refs[i] == PermissionRef(permissionIds[i], PermissionById(t, permissionIds[i]).value.name)
  {
    seq(|permissionIds|, i requires 0 <= i < |permissionIds| =>
      PermissionRef(permissionIds[i], PermissionById(t, permissionIds[i]).value.name))
  }

  /** The create-role handler as a function of the tables. */
  function CreateRoleStep(t: Tables, cfg: Jwt.Config, fmt: Formats, authorization: Option<string>,
                          body: CreateRoleBody, now: nat, newId: string): Effect<CreateRoleResponse>
  {
    match Gate.Admit(t, cfg, authorization, now, RequiredPermission)
    case Fail(e) => Refuse(t, e)
    case Pass => InsertRole(t, fmt, body, newId)
  }

  /**
   * What the handler does once admitted: validate, refuse a name any role
   * already has (in any tenant), insert the role with its grants.
   */
  function InsertRole(t: Tables, fmt: Formats, body: CreateRoleBody, newId: string): Effect<CreateRoleResponse>
  {
    if Gate.ValidateBody(body, Accepting((b: CreateRoleBody) => CreateRoleAccepts(fmt, b))).Failure? then
      Refuse(t, Gate.ValidationFailed)
    else if RoleByName(t, body.name).Some? then Refuse(t, NameTaken)
    else
      var permissionIds := body.permissionIds.GetOr([]);
      if !GrantablePermissions(t, permissionIds) then Refuse(t, ConstraintViolation)
      else
        Effect(Success(CreateRoleResponse(201, CreatedRole(newId, body.name, body.description,
                                                           PermissionRefs(t, permissionIds)))),
               t.(roles := t.roles + [Role(newId, body.name, body.description, false, None)],
                  rolePermissions := t.rolePermissions + Grants(newId, permissionIds)),
               Untouched)
  }

  /**
   * Admission comes before any write; every refusal changes nothing; a name
   * used by any role gives 409.
   */
  lemma CreateRoleGates(t: Tables, cfg: Jwt.Config, fmt: Formats, authorization: Option<string>,
                        body: CreateRoleBody, now: nat, newId: string)
    ensures var e := CreateRoleStep(t, cfg, fmt, authorization, body, now, newId);
            var admit := Gate.Admit(t, cfg, authorization, now, RequiredPermission);
            && (e.result.Failure? ==> e.tables == t && e.cookie == Untouched)
            && (admit.Fail? ==> e.result == Failure(admit.error))
            && (admit == Pass && CreateRoleAccepts(fmt, body) && (exists r :: r in t.roles && r.name == body.name) ==>
                  e.result == Failure(NameTaken))
  {
  }

  /**
   * A created role has the given name and description and one grant per
   * given permission id, in order (none when the list is absent or empty);
   * the response lists exactly those permissions.
   */
  lemma CreateRoleSuccess(t: Tables, cfg: Jwt.Config, fmt: Formats, authorization: Option<string>,
                          body: CreateRoleBody, now: nat, newId: string)
    requires FreshId(t, newId)
    requires CreateRoleStep(t, cfg, fmt, authorization, body, now, newId).result.Success?
    ensures var e := CreateRoleStep(t, cfg, fmt, authorization, body, now, newId);
            var permissionIds := body.permissionIds.GetOr([]);
            && Gate.Admit(t, cfg, authorization, now, RequiredPermission) == Pass
            && (forall r :: r in t.roles ==> r.name != body.name)
            && e.tables.roles == t.roles + [Role(newId, body.name, body.description, false, None)]
            && e.tables.rolePermissions == t.rolePermissions + Grants(newId, permissionIds)
            && |e.result.value.data.permissions| == |permissionIds|
            && (forall i :: 0 <= i < |permissionIds| ==>
                  var p := PermissionById(t, permissionIds[i]);
                  p.Some? && e.result.value.data.permissions[i] == PermissionRef(permissionIds[i], p.value.name))
            && e.tables == t.(roles := e.tables.roles, rolePermissions := e.tables.rolePermissions)
  {
  }

  /**
   * The new role then grants exactly the permissions the response lists, in
   * the same order: what `getUserPermissions` resolves for a holder of it.
   * The foreign keys make sure no earlier grant row names the fresh id.
   */
  lemma CreatedRoleGrantsListed(t: Tables, cfg: Jwt.Config, fmt: Formats, authorization: Option<string>,
                                body: CreateRoleBody, now: nat, newId: string)
    requires FreshId(t, newId) && JoinKeysExist(t)
    requires CreateRoleStep(t, cfg, fmt, authorization, body, now, newId).result.Success?
    ensures var e := CreateRoleStep(t, cfg, fmt, authorization, body, now, newId);
            var listed := e.result.value.data.permissions;
            Permissions.GrantNames(e.tables, newId, e.tables.rolePermissions)
            == seq(|listed|, i requires 0 <= i < |listed| => listed[i].name)
  {
    var e := CreateRoleStep(t, cfg, fmt, authorization, body, now, newId);
    var permissionIds := body.permissionIds.GetOr([]);
    CreateRoleSuccess(t, cfg, fmt, authorization, body, now, newId);
    forall rp | rp in t.rolePermissions ensures rp.roleId != newId {
      assert RoleById(t, rp.roleId).value in t.roles;
    }
    GrantNamesOfOthers(t, newId, t.rolePermissions);
    GrantNamesOfGrants(t, newId, t.rolePermissions, permissionIds);
    Permissions.GrantNamesFrame(t, e.tables, newId, e.tables.rolePermissions);
  }

  /** Rows of other roles grant `roleId` nothing. */
  lemma {:induction false} GrantNamesOfOthers(t: Tables, roleId: string, rps: seq<RolePermission>)
    requires forall rp :: rp in rps ==> rp.roleId != roleId
    ensures Permissions.GrantNames(t, roleId, rps) == []
  {
    if rps != [] {
      assert forall rp :: rp in rps[..|rps| - 1] ==> rp in rps;
      GrantNamesOfOthers(t, roleId, rps[..|rps| - 1]);
    }
  }

  /** Appending grants of stored permissions adds their names, in order. */
  lemma {:induction false} GrantNamesOfGrants(t: Tables, roleId: string, rps: seq<RolePermission>, ids: seq<string>)
    requires forall i :: 0 <= i < |ids| ==> PermissionById(t, ids[i]).Some?
    ensures Permissions.GrantNames(t, roleId, rps + Grants(roleId, ids))
            == Permissions.GrantNames(t, roleId, rps)
               + seq(|ids|, i requires 0 <= i < |ids| => PermissionById(t, ids[i]).value.name)
  {
    if ids == [] {
      assert rps + Grants(roleId, ids) == rps;
    } else {
      var init, id := ids[..|ids| - 1], ids[|ids| - 1];
      var all := rps + Grants(roleId, ids);
      assert all[..|all| - 1] == rps + Grants(roleId, init);
      assert all[|all| - 1] == RolePermission(roleId, id);
      GrantNamesOfGrants(t, roleId, rps, init);
      var names := seq(|ids|, i requires 0 <= i < |ids| => PermissionById(t, ids[i]).value.name);
      var initNames := seq(|init|, i requires 0 <= i < |init| => PermissionById(t, init[i]).value.name);
      assert names == initNames + [PermissionById(t, id).value.name];
    }
  }

  /**
   * Creating a role keeps role names unique and every join row's ends in
   * place, given a fresh id.
   */
  lemma InsertRoleKeepsKeys(t: Tables, fmt: Formats, body: CreateRoleBody, newId: string)
    requires FreshId(t, newId) && UniqueRoleNames(t) && JoinKeysExist(t)
    ensures var t' := InsertRole(t, fmt, body, newId).tables;
            UniqueRoleNames(t') && JoinKeysExist(t')
  {
    var e := InsertRole(t, fmt, body, newId);
    if e.result.Success? {
      var t' := e.tables;
      var role := Role(newId, body.name, body.description, false, None);
      var permissionIds := body.permissionIds.GetOr([]);
      assert t'.roles == t.roles + [role];
      AppendKeepsUnique(t.roles, role, (r: Role) => r.name);
      forall id | RoleById(t, id).Some? ensures RoleById(t', id).Some? {
        assert RoleById(t, id).value in t'.roles;
      }
      assert RoleById(t', newId).Some? by { assert role in t'.roles; }
      forall rp | rp in t'.rolePermissions
        ensures RoleById(t', rp.roleId).Some? && PermissionById(t', rp.permissionId).Some?
      {
        if rp !in t.rolePermissions {
          var rows := Grants(newId, permissionIds);
          assert rp in rows;
          var i :| 0 <= i < |rows| && rows[i] == rp;
          assert PermissionById(t, permissionIds[i]).Some?;
        }
      }
    }
  }

  /** The handler: gates, validation, the name check, then the insert. */
  method HandleCreateRole(db: Database, event: HttpEvent, cfg: Jwt.Config, fmt: Formats,
                          body: CreateRoleBody, now: nat, newId: string)
    returns (r: Result<CreateRoleResponse, HttpError>)
    modifies db`roles, db`rolePermissions, event`contextUser
    ensures var e := CreateRoleStep(old(db.Snapshot()), cfg, fmt, event.authorization, body, now, newId);
            r == e.result && db.Snapshot() == e.tables
    ensures event.contextUser
            == Gate.AttachUser(old(event.contextUser), Gate.Authenticate(old(db.Snapshot()), cfg, event.authorization, now))
  {
    var auth := Gate.RequireAuth(event, db.Snapshot(), cfg, now);
    if auth.Failure? {
      return Failure(auth.error);
    }
    var allowed := Gate.RequirePermission(event, db.Snapshot(), RequiredPermission);
    if allowed.Fail? {
      return Failure(allowed.error);
    }
    assert Gate.Admit(db.Snapshot(), cfg, event.authorization, now, RequiredPermission) == Pass;
    if !CreateRoleAccepts(fmt, body) {
      return Failure(Gate.ValidationFailed);
    }
    var existing := RoleByName(db.Snapshot(), body.name);
    if existing.Some? {
      return Failure(NameTaken);
    }
    var permissionIds := body.permissionIds.GetOr([]);
    if !GrantablePermissions(db.Snapshot(), permissionIds) {
      return Failure(ConstraintViolation);
    }
    var permissions := PermissionRefs(db.Snapshot(), permissionIds);
    db.roles := db.roles + [Role(newId, body.name, body.description, false, None)];
    db.rolePermissions := db.rolePermissions + Grants(newId, permissionIds);
    r := Success(CreateRoleResponse(201, CreatedRole(newId, body.name, body.description, permissions)));
  }
}
