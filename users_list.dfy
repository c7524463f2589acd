/** `GET /api/users` (server/api/users/index.get.ts). */
module UsersList {
  import opened Wrappers
  import opened Http
  import opened Db
  import opened Schemas
  import opened Listing
  import Gate
  import Jwt
  import Permissions
  import UsersCreate

  const RequiredPermission: string := "users:read"

  /** One user as the list shows it: no password, roles flattened. */
  datatype UserItem = UserItem(
    id: string, email: string, name: Option<string>, isActive: bool, createdAt: nat,
    roles: seq<UsersCreate.RoleRef>)

  datatype UserPage = UserPage(data: seq<UserItem>, pagination: PageInfo)

  /** The id and name of the role behind each id, skipping an id that names no role. */
  function RoleRefsOf(t: Tables, ids: seq<string>): seq<UsersCreate.RoleRef>
  {
    if ids == [] then []
    else
      var r := RoleById(t, ids[0]);
      (if r.Some? then [UsersCreate.RoleRef(r.value.id, r.value.name)] else []) + RoleRefsOf(t, ids[1..])
  }

  /** The flattened roles carry, in order, the names `getUserRoles` resolves. */
  lemma {:induction false} RoleRefsNames(t: Tables, ids: seq<string>)
    ensures |RoleRefsOf(t, ids)| == |Permissions.RoleNames(t, ids)|
    ensures forall i :: 0 <= i < |RoleRefsOf(t, ids)| ==>
              RoleRefsOf(t, ids)[i].name == Permissions.RoleNames(t, ids)[i]
              && RoleById(t, RoleRefsOf(t, ids)[i].id).Some?
  {
    if ids != [] {
      RoleRefsNames(t, ids[1..]);
      var r := RoleById(t, ids[0]);
      if r.Some? {
        assert RoleById(t, r.value.id).Some? by {
          assert r.value in t.roles;
        }
      }
    }
  }

  /** A user row as the list shows it. */
  function Item(t: Tables, u: User): UserItem
  {
    UserItem(u.id, u.email, u.name, u.isActive, u.createdAt,
             RoleRefsOf(t, Permissions.AssignedRoleIds(t.userRoles, u.id)))
  }

  /** The `where` of a search: the email or the name contains it, ignoring case. */
  predicate UserMatches(u: User, search: string)
  {
    ContainsInsensitive(u.email, search) || (u.name.Some? && ContainsInsensitive(u.name.value, search))
  }

  /** `orderBy: { createdAt: 'desc' }`: `a` may come before `b`. */
  predicate NewerOrSame(a: User, b: User) { a.createdAt >= b.createdAt }

  /** The users table as the database returns it, newest first. */
  predicate NewestFirst(t: Tables, rows: seq<User>)
  {
    multiset(rows) == multiset(t.users) && Ordered(rows, NewerOrSame)
  }

  /** The page of users a validated query asks for. */
  function PageOf(t: Tables, ordered: seq<User>, p: Pagination): UserPage
    requires p.page >= 1 && p.limit >= 1
  {
    var matching := Matching(ordered, p.search, UserMatches);
    var rows := Window(matching, Skip(p.page, p.limit), p.limit);
    UserPage(seq(|rows|, i requires 0 <= i < |rows| => Item(t, rows[i])),
             PageInfo(p.page, p.limit, |matching|, TotalPages(|matching|, p.limit)))
  }

  /** The list-users handler: the gates, the query, then the page. */
  function ListUsers(t: Tables, cfg: Jwt.Config, authorization: Option<string>, now: nat,
                     q: PageQuery, ordered: seq<User>): Result<UserPage, HttpError>
    requires NewestFirst(t, ordered)
  {
    match Gate.Admit(t, cfg, authorization, now, RequiredPermission)
    case Fail(e) => Failure(e)
    case Pass =>
      match Gate.ValidateQuery(q, ParsePagination)
      case Failure(e) => Failure(e)
      case Success(p) => Success(PageOf(t, ordered, p))
  }

  /** The gates come before the query is read; a bad query is a 400. */
  lemma ListUsersGates(t: Tables, cfg: Jwt.Config, authorization: Option<string>, now: nat,
                       q: PageQuery, ordered: seq<User>)
    requires NewestFirst(t, ordered)
    ensures var a := Gate.Admit(t, cfg, authorization, now, RequiredPermission);
            var r := ListUsers(t, cfg, authorization, now, q, ordered);
            && (a.Fail? ==> r == Failure(a.error))
            && (a == Pass ==> (r.Failure? <==> ParsePagination(q).None?))
            && (a == Pass && r.Failure? ==> r.error == Gate.InvalidQuery)
  {
  }

  /** A listing succeeds exactly for an admitted request with a valid query, and shows its page. */
  lemma ListUsersSuccess(t: Tables, cfg: Jwt.Config, authorization: Option<string>, now: nat,
                         q: PageQuery, ordered: seq<User>)
    requires NewestFirst(t, ordered)
    requires ListUsers(t, cfg, authorization, now, q, ordered).Success?
    ensures Gate.Admit(t, cfg, authorization, now, RequiredPermission) == Pass
    ensures ParsePagination(q).Some?
    ensures ListUsers(t, cfg, authorization, now, q, ordered).value == PageOf(t, ordered, ParsePagination(q).value)
  {
  }

  /**
   * A page holds at most `limit` users, each a stored user that matches the
   * search when there is one, in the database's order from row
   * `(page - 1) * limit` on and so newest first; `total` counts every
   * matching user whatever the order and `totalPages` is its ceiling over
   * `limit`.
   */
  lemma PageOfMeaning(t: Tables, ordered: seq<User>, p: Pagination)
    requires NewestFirst(t, ordered) && p.page >= 1 && p.limit >= 1
    ensures var r := PageOf(t, ordered, p);
            var matching := Matching(ordered, p.search, UserMatches);
            && r.pagination.page == p.page && r.pagination.limit == p.limit
            && r.pagination.total == |Matching(t.users, p.search, UserMatches)|
            && r.pagination.totalPages == TotalPages(r.pagination.total, p.limit)
            && |r.data| <= p.limit
            && (forall i :: 0 <= i < |r.data| ==>
                  var u := matching[Skip(p.page, p.limit) + i];
                  && r.data[i] == Item(t, u) && u in t.users
                  && (Searching(p.search) ==> UserMatches(u, p.search.value)))
            && (forall i, j :: 0 <= i < j < |r.data| ==> r.data[i].createdAt >= r.data[j].createdAt)
  {
    MatchingOrderFree(ordered, t.users, p.search, UserMatches);
    var rows := Window(Matching(ordered, p.search, UserMatches), Skip(p.page, p.limit), p.limit);
    PageKeepsOrder(ordered, p.search, UserMatches, Skip(p.page, p.limit), p.limit, NewerOrSame);
    assert forall i, j :: 0 <= i < j < |rows| ==> NewerOrSame(rows[i], rows[j]);
  }

  /**
   * Under the join-table foreign keys a listed user's roles are, in order,
   * one per assignment, named as `getUserRoles` names them.
   */
  lemma ItemRolesAreUserRoles(t: Tables, u: User)
    requires JoinKeysExist(t) && u in t.users
    ensures var ids := Permissions.AssignedRoleIds(t.userRoles, u.id);
            |Item(t, u).roles| == |ids| == |Permissions.GetUserRoles(t, u.id)|
            && forall i :: 0 <= i < |ids| ==>
                 Item(t, u).roles[i].name == Permissions.GetUserRoles(t, u.id)[i]
  {
    assert UserById(t, u.id).Some?;
    var ids := Permissions.AssignedRoleIds(t.userRoles, u.id);
    RoleRefsNames(t, ids);
    Permissions.UserRolesOnePerAssignment(t, u.id);
  }
}
