/** The permission resolver (server/utils/permissions.ts). */
module Permissions {
  import opened Wrappers
  import opened Db

  /** `pid` names a permission called `name`. */
  predicate Names(t: Tables, pid: string, name: string)
  {
    PermissionById(t, pid).Some? && PermissionById(t, pid).value.name == name
  }

  /**
   * The permission names role `roleId` grants through the rows `rps`, in row
   * order. A row whose permission is missing contributes nothing; the
   * foreign key rules such rows out.
   */
  function GrantNames(t: Tables, roleId: string, rps: seq<RolePermission>): seq<string>
  {
    if rps == [] then []
    else
      var last := rps[|rps| - 1];
      var p := PermissionById(t, last.permissionId);
      GrantNames(t, roleId, rps[..|rps| - 1])
        + (if last.roleId == roleId && p.Some? then [p.value.name] else [])
  }

  /** The permission names over every assignment of `userId` among `urs`, with repeats. */
  function HeldNames(t: Tables, userId: string, urs: seq<UserRole>): seq<string>
  {
    if urs == [] then []
    else
      var last := urs[|urs| - 1];
      HeldNames(t, userId, urs[..|urs| - 1])
        + (if last.userId == userId then GrantNames(t, last.roleId, t.rolePermissions) else [])
  }

  predicate NoDuplicates(xs: seq<string>)
  {
    forall i, j :: 0 <= i < j < |xs| ==> xs[i] != xs[j]
  }

  /** The elements of `xs` in order of first occurrence, each once. */
  function Distinct(xs: seq<string>): (d: seq<string>)
    ensures forall x :: x in d <==> x in xs
    ensures NoDuplicates(d)
  {
    if xs == [] then []
    else
      var init := xs[..|xs| - 1];
      assert xs == init + [xs[|xs| - 1]];
      var d := Distinct(init);
      if xs[|xs| - 1] in d then d else d + [xs[|xs| - 1]]
  }

  /** What `getUserPermissions(userId)` resolves to: `[]` for an unknown user. */
  function UserPermissions(t: Tables, userId: string): seq<string>
  {
    if UserById(t, userId).None? then [] else Distinct(HeldNames(t, userId, t.userRoles))
  }

  /** `userId` holds a role that grants a permission called `name`. */
  predicate Grants(t: Tables, userId: string, name: string)
  {
    exists ur, rp :: ur in t.userRoles && rp in t.rolePermissions
      && ur.userId == userId && rp.roleId == ur.roleId && Names(t, rp.permissionId, name)
  }

  lemma {:induction false} GrantNamesMembers(t: Tables, roleId: string, rps: seq<RolePermission>, name: string)
    ensures name in GrantNames(t, roleId, rps)
            <==> exists rp :: rp in rps && rp.roleId == roleId && Names(t, rp.permissionId, name)
  {
    if rps != [] {
      var init := rps[..|rps| - 1];
      assert rps == init + [rps[|rps| - 1]];
      GrantNamesMembers(t, roleId, init, name);
    }
  }

  lemma {:induction false} HeldNamesMembers(t: Tables, userId: string, urs: seq<UserRole>, name: string)
    ensures name in HeldNames(t, userId, urs)
            <==> exists ur, rp :: ur in urs && rp in t.rolePermissions
                   && ur.userId == userId && rp.roleId == ur.roleId && Names(t, rp.permissionId, name)
  {
    if urs != [] {
      var init := urs[..|urs| - 1];
      var last := urs[|urs| - 1];
      assert urs == init + [last];
      HeldNamesMembers(t, userId, init, name);
      GrantNamesMembers(t, last.roleId, t.rolePermissions, name);
    }
  }

  /**
   * The resolved permissions are exactly the names granted by some role the
   * user holds, each listed once, and none for an unknown user.
   */
  lemma UserPermissionsAreGrants(t: Tables, userId: string, name: string)
    ensures name in UserPermissions(t, userId) <==> UserById(t, userId).Some? && Grants(t, userId, name)
    ensures NoDuplicates(UserPermissions(t, userId))
  {
    HeldNamesMembers(t, userId, t.userRoles, name);
  }

  lemma DistinctSnoc(xs: seq<string>, x: string)
    ensures Distinct(xs + [x]) == if x in Distinct(xs) then Distinct(xs) else Distinct(xs) + [x]
  {
    assert (xs + [x])[..|xs + [x]| - 1] == xs;
  }

  lemma HeldNamesStep(t: Tables, userId: string, urs: seq<UserRole>, i: nat)
    requires i < |urs|
    ensures HeldNames(t, userId, urs[..i + 1])
            == HeldNames(t, userId, urs[..i])
               + (if urs[i].userId == userId then GrantNames(t, urs[i].roleId, t.rolePermissions) else [])
  {
    assert urs[..i + 1][..i] == urs[..i];
  }

  lemma GrantNamesStep(t: Tables, roleId: string, rps: seq<RolePermission>, j: nat)
    requires j < |rps|
    ensures GrantNames(t, roleId, rps[..j + 1])
            == GrantNames(t, roleId, rps[..j])
               + (if rps[j].roleId == roleId && PermissionById(t, rps[j].permissionId).Some?
                  then [PermissionById(t, rps[j].permissionId).value.name] else [])
  {
    assert rps[..j + 1][..j] == rps[..j];
  }

  /**
   * `getUserPermissions(userId)`: for every role the user holds, for every
   * permission the role grants, adds the name to a set kept in insertion order.
   */
  method GetUserPermissions(t: Tables, userId: string) returns (perms: seq<string>)
    ensures perms == UserPermissions(t, userId)
  {
    if UserById(t, userId).None? {
      return [];
    }
    perms := [];
    var i := 0;
    while i < |t.userRoles|
      invariant 0 <= i <= |t.userRoles|
      invariant perms == Distinct(HeldNames(t, userId, t.userRoles[..i]))
    {
      HeldNamesStep(t, userId, t.userRoles, i);
      if t.userRoles[i].userId == userId {
        perms := AddRoleGrants(t, t.userRoles[i].roleId, HeldNames(t, userId, t.userRoles[..i]), perms);
      } else {
        assert HeldNames(t, userId, t.userRoles[..i]) + [] == HeldNames(t, userId, t.userRoles[..i]);
      }
      i := i + 1;
    }
    assert t.userRoles[..i] == t.userRoles;
  }

  /** The inner loop of `getUserPermissions`: adds the names role `roleId` grants. */
  method AddRoleGrants(t: Tables, roleId: string, ghost held: seq<string>, perms0: seq<string>)
    returns (perms: seq<string>)
    requires perms0 == Distinct(held)
    ensures perms == Distinct(held + GrantNames(t, roleId, t.rolePermissions))
  {
    perms := perms0;
    assert held + GrantNames(t, roleId, t.rolePermissions[..0]) == held;
    var j := 0;
    while j < |t.rolePermissions|
      invariant 0 <= j <= |t.rolePermissions|
      invariant perms == Distinct(held + GrantNames(t, roleId, t.rolePermissions[..j]))
    {
      var rp := t.rolePermissions[j];
      var p := PermissionById(t, rp.permissionId);
      DistinctGrantStep(t, roleId, held, j);
      if rp.roleId == roleId && p.Some? && p.value.name !in perms {
        perms := perms + [p.value.name];
      }
      j := j + 1;
    }
    assert t.rolePermissions[..j] == t.rolePermissions;
  }

  /** One more role-permission row adds its permission's name, unless already there. */
  lemma DistinctGrantStep(t: Tables, roleId: string, held: seq<string>, j: nat)
    requires j < |t.rolePermissions|
    ensures var rp, before := t.rolePermissions[j], Distinct(held + GrantNames(t, roleId, t.rolePermissions[..j]));
            var p := PermissionById(t, rp.permissionId);
            Distinct(held + GrantNames(t, roleId, t.rolePermissions[..j + 1]))
            == if rp.roleId == roleId && p.Some? && p.value.name !in before then before + [p.value.name] else before
  {
    var rp := t.rolePermissions[j];
    var granted := GrantNames(t, roleId, t.rolePermissions[..j]);
    var p := PermissionById(t, rp.permissionId);
    GrantNamesStep(t, roleId, t.rolePermissions, j);
    if rp.roleId == roleId && p.Some? {
      DistinctSnoc(held + granted, p.value.name);
      assert held + (granted + [p.value.name]) == held + granted + [p.value.name];
    } else {
      assert granted + [] == granted;
    }
  }

  /** `hasPermission(userId, permission)`. */
  method HasPermission(t: Tables, userId: string, permission: string) returns (allowed: bool)
    ensures allowed <==> UserById(t, userId).Some? && Grants(t, userId, permission)
  {
    var perms := GetUserPermissions(t, userId);
    UserPermissionsAreGrants(t, userId, permission);
    allowed := permission in perms;
  }

  /** `hasAnyPermission(userId, required)`: false for an empty list. */
  method HasAnyPermission(t: Tables, userId: string, required: seq<string>) returns (allowed: bool)
    ensures allowed <==> exists p :: p in required && p in UserPermissions(t, userId)
    ensures required == [] ==> !allowed
  {
    var perms := GetUserPermissions(t, userId);
    allowed := exists p :: p in required && p in perms;
  }

  /** `hasAllPermissions(userId, required)`: true for an empty list. */
  method HasAllPermissions(t: Tables, userId: string, required: seq<string>) returns (allowed: bool)
    ensures allowed <==> forall p :: p in required ==> p in UserPermissions(t, userId)
    ensures required == [] ==> allowed
  {
    var perms := GetUserPermissions(t, userId);
    allowed := forall p :: p in required ==> p in perms;
  }

  /** The ids of the roles assigned to `userId` among `urs`, in row order. */
  function AssignedRoleIds(urs: seq<UserRole>, userId: string): seq<string>
  {
    if urs == [] then []
    else AssignedRoleIds(urs[..|urs| - 1], userId)
         + (if urs[|urs| - 1].userId == userId then [urs[|urs| - 1].roleId] else [])
  }

  /** The names of the roles `ids`, skipping an id with no role. */
  function RoleNames(t: Tables, ids: seq<string>): seq<string>
  {
    if ids == [] then []
    else
      var r := RoleById(t, ids[0]);
      (if r.Some? then [r.value.name] else []) + RoleNames(t, ids[1..])
  }

  /** `getUserRoles(userId)`: one name per assignment, `[]` for an unknown user. */
  function GetUserRoles(t: Tables, userId: string): seq<string>
  {
    if UserById(t, userId).None? then [] else RoleNames(t, AssignedRoleIds(t.userRoles, userId))
  }

  lemma {:induction false} AssignedRoleIdsExist(t: Tables, urs: seq<UserRole>, userId: string)
    requires forall ur :: ur in urs ==> RoleById(t, ur.roleId).Some?
    ensures forall id :: id in AssignedRoleIds(urs, userId) ==> RoleById(t, id).Some?
  {
    if urs != [] {
      AssignedRoleIdsExist(t, urs[..|urs| - 1], userId);
    }
  }

  lemma {:induction false} RoleNamesOfExisting(t: Tables, ids: seq<string>)
    requires forall id :: id in ids ==> RoleById(t, id).Some?
    ensures |RoleNames(t, ids)| == |ids|
    ensures forall i :: 0 <= i < |ids| ==> RoleNames(t, ids)[i] == RoleById(t, ids[i]).value.name
  {
    if ids != [] {
      RoleNamesOfExisting(t, ids[1..]);
    }
  }

  /**
   * Under the join-table foreign keys, the user's role names are, position by
   * position, the names of the roles of the user's assignments.
   */
  lemma UserRolesOnePerAssignment(t: Tables, userId: string)
    requires JoinKeysExist(t)
    requires UserById(t, userId).Some?
    ensures |GetUserRoles(t, userId)| == |AssignedRoleIds(t.userRoles, userId)|
    ensures forall i :: 0 <= i < |GetUserRoles(t, userId)| ==>
              var r := RoleById(t, AssignedRoleIds(t.userRoles, userId)[i]);
              r.Some? && GetUserRoles(t, userId)[i] == r.value.name
  {
    AssignedRoleIdsExist(t, t.userRoles, userId);
    RoleNamesOfExisting(t, AssignedRoleIds(t.userRoles, userId));
  }

  /** The users table with every row of `userId` given the super-admin flag `flag`. */
  function WithSuperAdmin(users: seq<User>, userId: string, flag: bool): (r: seq<User>)
    ensures |r| == |users|
    ensures forall i :: 0 <= i < |r| ==>
              r[i] == if users[i].id == userId then users[i].(isSuperAdmin := flag) else users[i]
  {
    if users == [] then []
    else
      [if users[0].id == userId then users[0].(isSuperAdmin := flag) else users[0]]
        + WithSuperAdmin(users[1..], userId, flag)
  }

  /** Resolution ignores super-admin status: changing it changes no user's permissions. */
  lemma SuperAdminPlaysNoPart(t: Tables, userId: string, other: string, flag: bool)
    ensures UserPermissions(t.(users := WithSuperAdmin(t.users, userId, flag)), other)
            == UserPermissions(t, other)
  {
    var t' := t.(users := WithSuperAdmin(t.users, userId, flag));
    SuperAdminKeepsIds(t, userId, flag, other);
    HeldNamesFrame(t, t', other, t.userRoles);
  }

  /** Changing super-admin status keeps every user id. */
  lemma SuperAdminKeepsIds(t: Tables, userId: string, flag: bool, other: string)
    ensures UserById(t.(users := WithSuperAdmin(t.users, userId, flag)), other).None?
            <==> UserById(t, other).None?
  {
    var users' := WithSuperAdmin(t.users, userId, flag);
    assert forall i :: 0 <= i < |users'| ==> users'[i].id == t.users[i].id;
    var before, after := UserById(t, other), UserById(t.(users := users'), other);
    if before.Some? {
      var i :| 0 <= i < |t.users| && t.users[i] == before.value;
      assert users'[i] in users';
    }
    if after.Some? {
      var i :| 0 <= i < |users'| && users'[i] == after.value;
      assert t.users[i] in t.users;
    }
  }

  lemma {:induction false} HeldNamesFrame(t: Tables, t': Tables, userId: string, urs: seq<UserRole>)
    requires t'.permissions == t.permissions && t'.rolePermissions == t.rolePermissions
    ensures HeldNames(t', userId, urs) == HeldNames(t, userId, urs)
  {
    if urs != [] {
      HeldNamesFrame(t, t', userId, urs[..|urs| - 1]);
      GrantNamesFrame(t, t', urs[|urs| - 1].roleId, t.rolePermissions);
    }
  }

  lemma {:induction false} GrantNamesFrame(t: Tables, t': Tables, roleId: string, rps: seq<RolePermission>)
    requires t'.permissions == t.permissions
    ensures GrantNames(t', roleId, rps) == GrantNames(t, roleId, rps)
  {
    if rps != [] {
      GrantNamesFrame(t, t', roleId, rps[..|rps| - 1]);
      assert PermissionById(t', rps[|rps| - 1].permissionId) == PermissionById(t, rps[|rps| - 1].permissionId);
    }
  }
}
