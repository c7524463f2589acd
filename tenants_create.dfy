/** `POST /api/tenants` (server/api/tenants/index.post.ts). */
module TenantsCreate {
  import opened Wrappers
  import opened Http
  import opened Db
  import opened Text
  import opened ThemeSchema
  import Gate
  import Jwt
  import Tenancy

  const SlugTaken := HttpError(409, "Tenant with this slug already exists")
  const RequiredPermission: string := "tenants:create"

  /** The request body; `isActive` may be left out. */
  datatype CreateTenantBody = CreateTenantBody(name: string, slug: string, isActive: Option<bool>)

  /** The body once the schema has parsed it, the default filled in. */
  datatype TenantInput = TenantInput(name: string, slug: string, isActive: bool)

  predicate IsSlugChar(c: char) { IsLower(c) || IsDigit(c) || c == '-' }

  /** A slug: one to fifty characters, each a lowercase letter, a digit or `-`. */
  predicate IsSlug(s: string)
  {
    1 <= |s| <= 50 && forall i :: 0 <= i < |s| ==> IsSlugChar(s[i])
  }

  /** `createTenantSchema.safeParse`. */
  function ParseTenant(b: CreateTenantBody): (r: Option<TenantInput>)
    ensures r.Some? <==> 1 <= |b.name| <= 100 && IsSlug(b.slug)
    ensures r.Some? ==> r.value.name == b.name && r.value.slug == b.slug
    ensures r.Some? ==> (r.value.isActive <==> b.isActive != Some(false))
  {
    if 1 <= |b.name| <= 100 && IsSlug(b.slug) then Some(TenantInput(b.name, b.slug, b.isActive.GetOr(true)))
    else None
  }

  /** The settings row a new tenant starts with. */
  function DefaultTheme(tenantId: string): (s: Setting)
    ensures s.key == "theme" && s.tenantId == Some(tenantId) && ThemeSettingsAccepts(s.value)
  {
    Setting("theme", DefaultThemeSettings(), Some(tenantId))
  }

  /**
   * The create-tenant handler as a function of the tables, given the outcome
   * `auth` of `requireAuth`.
   */
  function CreateTenant(t: Tables, auth: Result<ContextUser, HttpError>, body: CreateTenantBody,
                        now: nat, newId: string): Effect<Tenant>
  {
    match Tenancy.AdmitSuperAdmin(t, auth, RequiredPermission)
    case Fail(e) => Refuse(t, e)
    case Pass => InsertTenant(t, body, now, newId)
  }

  /** Validation, the slug check, then the tenant and its theme row. */
  function InsertTenant(t: Tables, body: CreateTenantBody, now: nat, newId: string): Effect<Tenant>
  {
    match Gate.ValidateBody(body, ParseTenant)
    case Failure(e) => Refuse(t, e)
    case Success(input) =>
      if TenantBySlug(t, input.slug).Some? then Refuse(t, SlugTaken)
      else
        var tenant := Tenant(newId, input.name, input.slug, input.isActive, now);
        Effect(Success(tenant),
               t.(tenants := t.tenants + [tenant], settings := t.settings + [DefaultTheme(newId)]),
               Untouched)
  }

  /**
   * Behind `requireAuth` as written every request is refused and nothing is
   * written; an authenticated caller gets the super-admin 403.
   */
  lemma CreateTenantRefusesEveryone(t: Tables, cfg: Jwt.Config, authorization: Option<string>,
                                    body: CreateTenantBody, now: nat, newId: string)
    ensures var auth := Gate.Authenticate(t, cfg, authorization, now);
            var e := CreateTenant(t, auth, body, now, newId);
            && e.result.Failure? && e.tables == t
            && (auth.Success? ==> e.result.error == Tenancy.SuperAdminRequired)
  {
    Tenancy.SuperAdminGateAdmitsNobody(t, cfg, authorization, now, RequiredPermission);
  }

  /**
   * The order of the refusals: authentication, super-admin, permission,
   * validation, slug; each changes nothing.
   */
  lemma CreateTenantGates(t: Tables, auth: Result<ContextUser, HttpError>, body: CreateTenantBody,
                          now: nat, newId: string)
    ensures var e := CreateTenant(t, auth, body, now, newId);
            && (e.result.Failure? ==> e.tables == t && e.cookie == Untouched)
            && (auth.Failure? ==> e.result == Failure(auth.error))
            && (auth.Success? && !Tenancy.IsSuperAdmin(Some(auth.value)) ==>
                  e.result == Failure(Tenancy.SuperAdminRequired))
            && (auth.Success? && Tenancy.IsSuperAdmin(Some(auth.value))
                && Gate.Authorize(t, Some(auth.value), RequiredPermission).Fail? ==>
                  e.result == Failure(Gate.MissingPermission(RequiredPermission)))
            && (Tenancy.AdmitSuperAdmin(t, auth, RequiredPermission) == Pass && ParseTenant(body).None? ==>
                  e.result == Failure(Gate.ValidationFailed))
            && (Tenancy.AdmitSuperAdmin(t, auth, RequiredPermission) == Pass && ParseTenant(body).Some?
                && (exists x :: x in t.tenants && x.slug == body.slug) ==>
                  e.result == Failure(SlugTaken))
  {
    if auth.Success? && Tenancy.IsSuperAdmin(Some(auth.value)) {
      Gate.AuthorizeMeaning(t, Some(auth.value), RequiredPermission);
    }
  }

  /**
   * A created tenant carries the name, the slug and the flag (true unless
   * given false), and exactly one tenant and one theme row holding the
   * default settings are added; nothing else changes.
   */
  lemma CreateTenantSuccess(t: Tables, auth: Result<ContextUser, HttpError>, body: CreateTenantBody,
                            now: nat, newId: string)
    requires CreateTenant(t, auth, body, now, newId).result.Success?
    ensures var e := CreateTenant(t, auth, body, now, newId);
            var x := e.result.value;
            && Tenancy.AdmitSuperAdmin(t, auth, RequiredPermission) == Pass
            && x == Tenant(newId, body.name, body.slug, body.isActive != Some(false), now)
            && 1 <= |x.name| <= 100 && IsSlug(x.slug)
            && (forall y :: y in t.tenants ==> y.slug != x.slug)
            && e.tables == t.(tenants := t.tenants + [x],
                              settings := t.settings + [Setting("theme", DefaultThemeSettings(), Some(newId))])
            && ThemeSettingsAccepts(DefaultThemeSettings())
  {
  }

  /** Creating a tenant keeps slugs unique. */
  lemma CreateTenantKeepsSlugsUnique(t: Tables, auth: Result<ContextUser, HttpError>, body: CreateTenantBody,
                                     now: nat, newId: string)
    requires UniqueSlugs(t)
    ensures UniqueSlugs(CreateTenant(t, auth, body, now, newId).tables)
  {
    var e := CreateTenant(t, auth, body, now, newId);
    if e.result.Success? {
      AppendKeepsUnique(t.tenants, e.result.value, (x: Tenant) => x.slug);
    }
  }

  /**
   * The handler. `requireAuth` here attaches the user's super-admin flag and
   * tenant, as the tenant gate needs.
   */
  method HandleCreateTenant(db: Database, event: HttpEvent, cfg: Jwt.Config, body: CreateTenantBody,
                            now: nat, newId: string)
    returns (r: Result<Tenant, HttpError>)
    modifies db`tenants, db`settings, event`contextUser
    ensures var e := CreateTenant(old(db.Snapshot()), Tenancy.AuthenticateScoped(old(db.Snapshot()), cfg, event.authorization, now),
                                  body, now, newId);
            r == e.result && db.Snapshot() == e.tables
    ensures event.contextUser
            == Gate.AttachUser(old(event.contextUser), Tenancy.AuthenticateScoped(old(db.Snapshot()), cfg, event.authorization, now))
  {
    var auth := Tenancy.RequireAuthScoped(event, db.Snapshot(), cfg, now);
    if auth.Failure? {
      return Failure(auth.error);
    }
    if !Tenancy.IsSuperAdmin(event.contextUser) {
      return Failure(Tenancy.SuperAdminRequired);
    }
    var allowed := Gate.RequirePermission(event, db.Snapshot(), RequiredPermission);
    if allowed.Fail? {
      return Failure(allowed.error);
    }
    var input := ParseTenant(body);
    if input.None? {
      return Failure(Gate.ValidationFailed);
    }
    var existing := TenantBySlug(db.Snapshot(), input.value.slug);
    if existing.Some? {
      return Failure(SlugTaken);
    }
    var tenant := Tenant(newId, input.value.name, input.value.slug, input.value.isActive, now);
    db.tenants := db.tenants + [tenant];
    db.settings := db.settings + [DefaultTheme(newId)];
    r := Success(tenant);
  }
}
