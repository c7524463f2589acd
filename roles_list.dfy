/** `GET /api/roles` (server/api/roles/index.get.ts). */
module RolesList {
  import opened Wrappers
  import opened Http
  import opened Db
  import opened Schemas
  import opened Listing
  import opened Text
  import Gate
  import Jwt
  import Permissions
  import RolesCreate

  const RequiredPermission: string := "roles:read"

  /** One role as the list shows it: grants flattened, assignments counted. */
  datatype RoleItem = RoleItem(
    id: string, name: string, description: Option<string>,
    permissions: seq<RolesCreate.PermissionRef>, userCount: nat)

  datatype RolePage = RolePage(data: seq<RoleItem>, pagination: PageInfo)

  /**
   * The id and name of each permission role `roleId` is granted through the
   * rows `rps`, in row order; a row whose permission is missing shows nothing.
   */
  function GrantedPermissions(t: Tables, roleId: string, rps: seq<RolePermission>): seq<RolesCreate.PermissionRef>
  {
    if rps == [] then []
    else
      var last := rps[|rps| - 1];
      var p := PermissionById(t, last.permissionId);
      GrantedPermissions(t, roleId, rps[..|rps| - 1])
        + (if last.roleId == roleId && p.Some? then [RolesCreate.PermissionRef(p.value.id, p.value.name)] else [])
  }

  /**
   * A listed role's permissions carry, in order, the names the permission
   * resolver draws from that role.
   */
  lemma {:induction false} GrantedPermissionNames(t: Tables, roleId: string, rps: seq<RolePermission>)
    ensures |GrantedPermissions(t, roleId, rps)| == |Permissions.GrantNames(t, roleId, rps)|
    ensures forall i :: 0 <= i < |GrantedPermissions(t, roleId, rps)| ==>
              GrantedPermissions(t, roleId, rps)[i].name == Permissions.GrantNames(t, roleId, rps)[i]
  {
    if rps != [] {
      GrantedPermissionNames(t, roleId, rps[..|rps| - 1]);
    }
  }

  /** The number of user-role rows for `roleId`: `_count.userRoles`. */
  function UserCount(t: Tables, roleId: string): (n: nat)
    ensures n <= |t.userRoles|
    ensures n == 0 <==> forall ur :: ur in t.userRoles ==> ur.roleId != roleId
  {
    var rows := Filter(t.userRoles, (ur: UserRole) => ur.roleId == roleId);
    assert rows != [] ==> rows[0] in rows;
    |rows|
  }

  function Item(t: Tables, r: Role): RoleItem
  {
    RoleItem(r.id, r.name, r.description, GrantedPermissions(t, r.id, t.rolePermissions), UserCount(t, r.id))
  }

  /** The `where` of a search: the name or the description contains it, ignoring case. */
  predicate RoleMatches(r: Role, search: string)
  {
    ContainsInsensitive(r.name, search) || (r.description.Some? && ContainsInsensitive(r.description.value, search))
  }

  /** The order `orderBy: { name: 'asc' }` asks for. */
  predicate NameLe(a: Role, b: Role) { LexLe(a.name, b.name) }

  /** The roles table as the database returns it, ordered by name. */
  predicate ByName(t: Tables, rows: seq<Role>)
  {
    multiset(rows) == multiset(t.roles) && Ordered(rows, NameLe)
  }

  /** The page of roles a validated query asks for; `byName` is the table ordered by name. */
  function PageOf(t: Tables, byName: seq<Role>, p: Pagination): RolePage
    requires p.page >= 1 && p.limit >= 1
  {
    var matching := Matching(byName, p.search, RoleMatches);
    var rows := Window(matching, Skip(p.page, p.limit), p.limit);
    RolePage(seq(|rows|, i requires 0 <= i < |rows| => Item(t, rows[i])),
             PageInfo(p.page, p.limit, |matching|, TotalPages(|matching|, p.limit)))
  }

  /** The list-roles handler: the gates, the query, then the page. */
  function ListRoles(t: Tables, cfg: Jwt.Config, authorization: Option<string>, now: nat,
                     q: PageQuery, byName: seq<Role>): Result<RolePage, HttpError>
    requires ByName(t, byName)
  {
    match Gate.Admit(t, cfg, authorization, now, RequiredPermission)
    case Fail(e) => Failure(e)
    case Pass =>
      match Gate.ValidateQuery(q, ParsePagination)
      case Failure(e) => Failure(e)
      case Success(p) => Success(PageOf(t, byName, p))
  }

  /**
   * The gates come before the query is read; a bad query is a 400; otherwise
   * the page the query asks for.
   */
  lemma ListRolesOutcomes(t: Tables, cfg: Jwt.Config, authorization: Option<string>, now: nat,
                          q: PageQuery, byName: seq<Role>)
    requires ByName(t, byName)
    ensures var a := Gate.Admit(t, cfg, authorization, now, RequiredPermission);
            var r := ListRoles(t, cfg, authorization, now, q, byName);
            && (a.Fail? ==> r == Failure(a.error))
            && (a == Pass && ParsePagination(q).None? ==> r == Failure(Gate.InvalidQuery))
            && (a == Pass && ParsePagination(q).Some? ==> r == Success(PageOf(t, byName, ParsePagination(q).value)))
  {
  }

  /**
   * A page holds at most `limit` stored roles matching the search, in name
   * order from row `(page - 1) * limit` on, each with its description, its
   * grants and the number of its assignments; `total` counts every matching
   * role.
   */
  lemma PageOfMeaning(t: Tables, byName: seq<Role>, p: Pagination)
    requires ByName(t, byName) && p.page >= 1 && p.limit >= 1
    ensures var r := PageOf(t, byName, p);
            var matching := Matching(byName, p.search, RoleMatches);
            && r.pagination.page == p.page && r.pagination.limit == p.limit
            && r.pagination.total == |Matching(t.roles, p.search, RoleMatches)|
            && r.pagination.totalPages == TotalPages(r.pagination.total, p.limit)
            && |r.data| <= p.limit
            && (forall i :: 0 <= i < |r.data| ==>
                  var x := matching[Skip(p.page, p.limit) + i];
                  && x in t.roles && (Searching(p.search) ==> RoleMatches(x, p.search.value))
                  && r.data[i] == Item(t, x)
                  && r.data[i].id == x.id && r.data[i].name == x.name && r.data[i].description == x.description
                  && r.data[i].permissions == GrantedPermissions(t, x.id, t.rolePermissions)
                  && r.data[i].userCount == |Filter(t.userRoles, (ur: UserRole) => ur.roleId == x.id)|)
            && (forall i, j :: 0 <= i < j < |r.data| ==> LexLe(r.data[i].name, r.data[j].name))
  {
    MatchingOrderFree(byName, t.roles, p.search, RoleMatches);
    var matching := Matching(byName, p.search, RoleMatches);
    var rows := Window(matching, Skip(p.page, p.limit), p.limit);
    PageKeepsOrder(byName, p.search, RoleMatches, Skip(p.page, p.limit), p.limit, NameLe);
    assert forall i, j :: 0 <= i < j < |rows| ==> NameLe(rows[i], rows[j]);
  }
}
