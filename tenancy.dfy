/**
 * Tenant scoping (server/utils/tenant.ts): which tenant a request acts in,
 * decided from the context user and the `x-tenant-id` header.
 */
module Tenancy {
  import opened Wrappers
  import opened Http
  import opened Db
  import Jwt
  import Gate
  import Permissions
  import opened Text
  import opened Listing

  datatype TenantContext = TenantContext(tenantId: Option<string>, isSuperAdmin: bool, userId: string)

  const TenantContextRequired := HttpError(400, "Tenant context required. SuperAdmins must provide X-Tenant-Id header.")

  /** JavaScript `x || null` on an optional string: the empty string counts as absent. */
  function OrNull(s: Option<string>): (r: Option<string>)
    ensures r.Some? <==> s.Some? && s.value != ""
    ensures r.Some? ==> r == s
  {
    if s.Some? && s.value != "" then s else None
  }

  /** `user.isSuperAdmin` used as a condition: only an attached `true` counts. */
  predicate FlagSet(user: ContextUser) { user.isSuperAdmin == Some(true) }

  /** `getTenantContext(event)`. */
  function GetTenantContext(user: Option<ContextUser>, header: Option<string>): (c: Option<TenantContext>)
    ensures c.None? <==> user.None?
    ensures c.Some? ==> c.value.userId == user.value.id && c.value.isSuperAdmin == FlagSet(user.value)
    ensures c.Some? && FlagSet(user.value) ==> c.value.tenantId == OrNull(header)
    ensures c.Some? && !FlagSet(user.value) ==> c.value.tenantId == user.value.tenantId
  {
    if user.None? then None
    else if FlagSet(user.value) then Some(TenantContext(OrNull(header), true, user.value.id))
    else Some(TenantContext(user.value.tenantId, false, user.value.id))
  }

  /** `getTenantId(event)`. */
  function GetTenantId(user: Option<ContextUser>, header: Option<string>): Option<string>
  {
    if user.None? then None
    else if FlagSet(user.value) then OrNull(header)
    else OrNull(user.value.tenantId)
  }

  /**
   * `getTenantId` is the context's tenant with an empty id read as none: the
   * header for a super-admin, the user's own tenant otherwise.
   */
  lemma TenantIdAgreesWithContext(user: Option<ContextUser>, header: Option<string>)
    ensures GetTenantId(user, header)
            == match GetTenantContext(user, header)
               case None => None
               case Some(c) => OrNull(c.tenantId)
    ensures user.Some? && !FlagSet(user.value) ==> GetTenantId(user, header) == OrNull(user.value.tenantId)
    ensures user.Some? && FlagSet(user.value) ==> GetTenantId(user, header) == OrNull(header)
  {
  }

  /** `requireTenantId(event)`: 400 exactly when there is no non-empty tenant id. */
  function RequireTenantId(user: Option<ContextUser>, header: Option<string>): (r: Result<string, HttpError>)
    ensures r.Failure? <==> GetTenantId(user, header).None?
    ensures r.Success? ==> r.value != "" && Some(r.value) == GetTenantId(user, header)
    ensures r.Failure? ==> r.error == TenantContextRequired
  {
    match GetTenantId(user, header)
    case None => Failure(TenantContextRequired)
    case Some(id) => Success(id)
  }

  /** `isSuperAdmin(event)`: true only for an attached flag that is exactly `true`. */
  function IsSuperAdmin(user: Option<ContextUser>): (b: bool)
    ensures b <==> user.Some? && user.value.isSuperAdmin == Some(true)
  {
    user.Some? && FlagSet(user.value)
  }

  /** `validateTenantAccess(tenantId)`. */
  function ValidateTenantAccess(t: Tables, tenantId: string): (ok: bool)
    ensures ok <==> exists x :: x in t.tenants && x.id == tenantId && TenantById(t, tenantId) == Some(x) && x.isActive
  {
    TenantById(t, tenantId).Some? && TenantById(t, tenantId).value.isActive
  }

  /** The order `orderBy: { name: 'asc' }` asks for. */
  predicate TenantNameLe(a: Tenant, b: Tenant) { LexLe(a.name, b.name) }

  /** The tenants table as the database returns it, ordered by name. */
  predicate TenantsByName(t: Tables, rows: seq<Tenant>)
  {
    multiset(rows) == multiset(t.tenants) && Ordered(rows, TenantNameLe)
  }

  /**
   * `getAccessibleTenants(event)`. `byName` is the tenants table as the
   * database returns it ordered by name.
   */
  function GetAccessibleTenants(t: Tables, user: Option<ContextUser>, byName: seq<Tenant>): (r: seq<Tenant>)
    requires TenantsByName(t, byName)
    ensures user.None? ==> r == []
    ensures user.Some? && FlagSet(user.value) ==> multiset(r) == multiset(t.tenants)
    ensures user.Some? && !FlagSet(user.value) ==>
              r == (match OrNull(user.value.tenantId)
                    case None => []
                    case Some(id) => if TenantById(t, id).Some? then [TenantById(t, id).value] else [])
    ensures forall x :: x in r ==> x in t.tenants
    ensures forall i, j :: 0 <= i < j < |r| ==> LexLe(r[i].name, r[j].name)
  {
    if user.None? then []
    else if FlagSet(user.value) then
      assert forall x :: x in byName ==> x in multiset(t.tenants);
      byName
    else
      match OrNull(user.value.tenantId)
      case None => []
      case Some(id) =>
        match TenantById(t, id)
        case None => []
        case Some(x) => [x]
  }

  /**
   * What the tenant helpers see after `requireAuth`: it attaches neither
   * `isSuperAdmin` nor `tenantId`, so nobody counts as a super-admin, nobody
   * has a tenant id, `requireTenantId` always fails and no tenant is
   * accessible, whoever the user is.
   */
  lemma AfterRequireAuthNoTenantScope(t: Tables, cfg: Jwt.Config, authorization: Option<string>,
                                      now: nat, header: Option<string>, byName: seq<Tenant>)
    requires TenantsByName(t, byName)
    requires Gate.Authenticate(t, cfg, authorization, now).Success?
    ensures var user := Some(Gate.Authenticate(t, cfg, authorization, now).value);
            && !IsSuperAdmin(user)
            && GetTenantId(user, header) == None
            && RequireTenantId(user, header) == Failure(TenantContextRequired)
            && GetAccessibleTenants(t, user, byName) == []
  {
  }

  /**
   * The context user with the fields the tenant helpers read: what
   * `requireAuth` evidently means to attach.
   */
  function ScopedContextUser(u: User): (c: ContextUser)
    ensures c.id == u.id && c.isSuperAdmin == Some(u.isSuperAdmin) && c.tenantId == u.tenantId
  {
    ContextUser(u.id, u.email, u.name, Some(u.isSuperAdmin), u.tenantId)
  }

  /** `requireAuth` attaching the user's super-admin flag and tenant. */
  function AuthenticateScoped(t: Tables, cfg: Jwt.Config, authorization: Option<string>, now: nat)
    : (r: Result<ContextUser, HttpError>)
    ensures r.Failure? <==> Gate.Authenticate(t, cfg, authorization, now).Failure?
    ensures r.Failure? ==> r == Gate.Authenticate(t, cfg, authorization, now)
  {
    match Gate.Authenticate(t, cfg, authorization, now)
    case Failure(e) => Failure(e)
    case Success(c) => Success(ScopedContextUser(UserById(t, c.id).value))
  }

  /**
   * With the scoped context user a super-admin is recognised and picks the
   * tenant through the header, and a regular user acts in their own tenant.
   */
  lemma ScopedContextDecides(t: Tables, cfg: Jwt.Config, authorization: Option<string>, now: nat,
                             header: Option<string>)
    requires AuthenticateScoped(t, cfg, authorization, now).Success?
    ensures var c := AuthenticateScoped(t, cfg, authorization, now).value;
            var u := UserById(t, c.id).value;
            && UserById(t, c.id).Some?
            && (IsSuperAdmin(Some(c)) <==> u.isSuperAdmin)
            && GetTenantId(Some(c), header) == (if u.isSuperAdmin then OrNull(header) else OrNull(u.tenantId))
  {
  }

  /** `requireAuth` attaching the scoped context user. */
  method RequireAuthScoped(event: HttpEvent, t: Tables, cfg: Jwt.Config, now: nat)
    returns (r: Result<ContextUser, HttpError>)
    modifies event`contextUser
    ensures r == AuthenticateScoped(t, cfg, event.authorization, now)
    ensures event.contextUser == Gate.AttachUser(old(event.contextUser), r)
  {
    r := AuthenticateScoped(t, cfg, event.authorization, now);
    if r.Success? {
      event.contextUser := Some(r.value);
    }
  }

  const SuperAdminRequired := HttpError(403, "SuperAdmin access required")

  /**
   * How the tenant handlers open once `requireAuth` has produced `auth`:
   * the authentication error, then the super-admin 403, then
   * `requirePermission(permission)`.
   */
  function AdmitSuperAdmin(t: Tables, auth: Result<ContextUser, HttpError>, permission: string)
    : (r: Outcome<HttpError>)
    ensures auth.Failure? ==> r == Fail(auth.error)
    ensures auth.Success? && !IsSuperAdmin(Some(auth.value)) ==> r == Fail(SuperAdminRequired)
    ensures auth.Success? && IsSuperAdmin(Some(auth.value)) ==>
              r == Gate.Authorize(t, Some(auth.value), permission)
  {
    match auth
    case Failure(e) => Fail(e)
    case Success(c) =>
      if !IsSuperAdmin(Some(c)) then Fail(SuperAdminRequired)
      else Gate.Authorize(t, Some(c), permission)
  }

  /**
   * Behind `requireAuth` as written the super-admin gate admits nobody: an
   * authenticated caller always gets the 403, whatever their flag in the
   * users table.
   */
  lemma SuperAdminGateAdmitsNobody(t: Tables, cfg: Jwt.Config, authorization: Option<string>,
                                   now: nat, permission: string)
    ensures AdmitSuperAdmin(t, Gate.Authenticate(t, cfg, authorization, now), permission).Fail?
    ensures Gate.Authenticate(t, cfg, authorization, now).Success? ==>
              AdmitSuperAdmin(t, Gate.Authenticate(t, cfg, authorization, now), permission)
              == Fail(SuperAdminRequired)
  {
  }

  /**
   * Behind the scoped `requireAuth` the gate admits exactly the authenticated
   * super-admins whose roles grant the permission.
   */
  lemma ScopedSuperAdminGate(t: Tables, cfg: Jwt.Config, authorization: Option<string>,
                             now: nat, permission: string)
    ensures var a := Gate.Authenticate(t, cfg, authorization, now);
            AdmitSuperAdmin(t, AuthenticateScoped(t, cfg, authorization, now), permission) == Pass
            <==> a.Success? && UserById(t, a.value.id).Some? && UserById(t, a.value.id).value.isSuperAdmin
                 && Permissions.Grants(t, a.value.id, permission)
    ensures var r := AdmitSuperAdmin(t, AuthenticateScoped(t, cfg, authorization, now), permission);
            r.Fail? ==> r.error.status in {401, 403}
  {
    var s := AuthenticateScoped(t, cfg, authorization, now);
    if s.Success? {
      Gate.AuthorizeMeaning(t, Some(s.value), permission);
    }
  }
}
