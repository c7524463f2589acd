/** `GET /api/tenants` (server/api/tenants/index.get.ts). */
module TenantsList {
  import opened Wrappers
  import opened Http
  import opened Db
  import opened Schemas
  import opened Listing
  import Gate
  import Jwt
  import Tenancy

  const RequiredPermission: string := "tenants:read"

  /** The query engine refusing a `skip` or `take` that is not an integer: an unhandled 500. */
  const QueryEngineError := HttpError(500, "Internal Server Error")

  /** The query once its schema has parsed it: numbers that need not be integers. */
  datatype TenantQuery = TenantQuery(page: real, limit: real, search: Option<string>)

  datatype TenantItem = TenantItem(tenant: Tenant, userCount: nat)

  /** The `meta` block: `page` and `limit` echo the query. */
  datatype TenantMeta = TenantMeta(total: nat, page: real, limit: real, totalPages: nat)

  datatype TenantPage = TenantPage(data: seq<TenantItem>, meta: TenantMeta)

  /**
   * `z.coerce.number().min(1).max(max).default(default)` on one parameter;
   * with `integral`, also `.int()`.
   */
  function AtLeastOne(raw: RawNumber, default: real, max: Option<real>, integral: bool): (r: Option<real>)
    ensures raw.Missing? ==> r == Some(default)
    ensures raw.NotANumber? ==> r.None?
    ensures raw.Number? ==>
              (r.Some? <==> raw.value >= 1.0 && (max.None? || raw.value <= max.value)
                            && (integral ==> IsInteger(raw.value)))
    ensures raw.Number? && r.Some? ==> r.value == raw.value
  {
    match raw
    case Missing => Some(default)
    case NotANumber => None
    case Number(x) =>
      if x >= 1.0 && (max.None? || x <= max.value) && (integral ==> IsInteger(x)) then Some(x) else None
  }

  /** The handler's `querySchema`: page at least 1 (default 1), limit within 1..100 (default 20). */
  function ParseTenantQuery(q: PageQuery): (r: Option<TenantQuery>)
    ensures r.Some? ==> r.value.page >= 1.0 && 1.0 <= r.value.limit <= 100.0 && r.value.search == q.search
    ensures q.page.Missing? && q.limit.Missing? ==> r == Some(TenantQuery(1.0, 20.0, q.search))
  {
    match (AtLeastOne(q.page, 1.0, None, false), AtLeastOne(q.limit, 20.0, Some(100.0), false))
    case (Some(page), Some(limit)) => Some(TenantQuery(page, limit, q.search))
    case _ => None
  }

  /** The same schema with `.int()` on both numbers, as the shared pagination schema has. */
  function ParseTenantQueryInt(q: PageQuery): (r: Option<TenantQuery>)
    ensures r.Some? ==> r.value.page >= 1.0 && 1.0 <= r.value.limit <= 100.0 && r.value.search == q.search
    ensures r.Some? ==> IsInteger(r.value.page) && IsInteger(r.value.limit)
    ensures r.Some? ==> ParseTenantQuery(q) == r
    ensures q.page.Missing? && q.limit.Missing? ==> r == Some(TenantQuery(1.0, 20.0, q.search))
  {
    match (AtLeastOne(q.page, 1.0, None, true), AtLeastOne(q.limit, 20.0, Some(100.0), true))
    case (Some(page), Some(limit)) =>
      assert IsInteger(1.0) && IsInteger(20.0);
      Some(TenantQuery(page, limit, q.search))
    case _ => None
  }

  predicate Parsed(parsed: Option<TenantQuery>)
  {
    parsed.Some? ==> parsed.value.page >= 1.0 && parsed.value.limit >= 1.0
  }

  /** The number of users whose tenant is `tenantId`: `_count.users`. */
  function UserCount(t: Tables, tenantId: string): (n: nat)
    ensures n <= |t.users|
    ensures n == 0 <==> forall u :: u in t.users ==> u.tenantId != Some(tenantId)
  {
    var rows := Filter(t.users, (u: User) => u.tenantId == Some(tenantId));
    assert rows != [] ==> rows[0] in rows;
    |rows|
  }

  /** The `where` of a search: the name or the slug contains it, ignoring case. */
  predicate TenantMatches(x: Tenant, search: string)
  {
    ContainsInsensitive(x.name, search) || ContainsInsensitive(x.slug, search)
  }

  /** `orderBy: { createdAt: 'desc' }`: `a` may come before `b`. */
  predicate NewerOrSame(a: Tenant, b: Tenant) { a.createdAt >= b.createdAt }

  /** The tenants table as the database returns it, newest first. */
  predicate NewestFirst(t: Tables, rows: seq<Tenant>)
  {
    multiset(rows) == multiset(t.tenants) && Ordered(rows, NewerOrSame)
  }

  /** The page run with integral `skip` and `take`. */
  function PageOf(t: Tables, ordered: seq<Tenant>, skip: nat, limit: nat, q: TenantQuery): TenantPage
    requires limit >= 1
  {
    var matching := Matching(ordered, q.search, TenantMatches);
    var rows := Window(matching, skip, limit);
    TenantPage(seq(|rows|, i requires 0 <= i < |rows| => TenantItem(rows[i], UserCount(t, rows[i].id))),
               TenantMeta(|matching|, q.page, q.limit, TotalPages(|matching|, limit)))
  }

  /** The query engine's check on an `Int` argument: it takes a non-negative integer only. */
  function EngineInt(x: real): (r: Option<nat>)
    ensures r.Some? <==> IsInteger(x) && x >= 0.0
    ensures r.Some? ==> r.value as real == x
  {
    if IsInteger(x) && x >= 0.0 then Some(x.Floor as nat) else None
  }

  /** `skip` and `take` as the database receives them, when it accepts both. */
  function EngineArgs(q: TenantQuery): (r: Option<(nat, nat)>)
    requires q.limit >= 1.0
    ensures r.Some? <==> EngineInt((q.page - 1.0) * q.limit).Some? && EngineInt(q.limit).Some?
    ensures r.Some? ==> r.value.0 as real == (q.page - 1.0) * q.limit && r.value.1 as real == q.limit
    ensures r.Some? ==> r.value.1 >= 1
  {
    var skip, take := EngineInt((q.page - 1.0) * q.limit), EngineInt(q.limit);
    if skip.None? || take.None? then None
    else
      assert take.value >= 1 by { assert take.value as real >= 1.0; }
      Some((skip.value, take.value))
  }

  /**
   * The query: `skip = (page - 1) * limit` and `take = limit` go to the
   * database, which refuses either when it is not an integer.
   */
  function RunQuery(t: Tables, ordered: seq<Tenant>, q: TenantQuery): Result<TenantPage, HttpError>
    requires q.limit >= 1.0
  {
    match EngineArgs(q)
    case None => Failure(QueryEngineError)
    case Some((skip, take)) => Success(PageOf(t, ordered, skip, take, q))
  }

  /**
   * The list-tenants handler given the outcome `auth` of `requireAuth` and
   * the outcome `parsed` of the query schema.
   */
  function ListTenants(t: Tables, auth: Result<ContextUser, HttpError>, parsed: Option<TenantQuery>,
                       ordered: seq<Tenant>): Result<TenantPage, HttpError>
    requires Parsed(parsed)
  {
    match Tenancy.AdmitSuperAdmin(t, auth, RequiredPermission)
    case Fail(e) => Failure(e)
    case Pass =>
      match Gate.ValidateQuery(parsed, (p: Option<TenantQuery>) => p)
      case Failure(e) => Failure(e)
      case Success(q) => RunQuery(t, ordered, q)
  }

  /** Behind `requireAuth` as written nobody can list tenants. */
  lemma ListTenantsRefusesEveryone(t: Tables, cfg: Jwt.Config, authorization: Option<string>, now: nat,
                                   q: PageQuery, ordered: seq<Tenant>)
    ensures var auth := Gate.Authenticate(t, cfg, authorization, now);
            var r := ListTenants(t, auth, ParseTenantQuery(q), ordered);
            && r.Failure?
            && (auth.Success? ==> r.error == Tenancy.SuperAdminRequired)
  {
    Tenancy.SuperAdminGateAdmitsNobody(t, cfg, authorization, now, RequiredPermission);
  }

  /** The order of the refusals: authentication, super-admin, permission, then the query. */
  lemma ListTenantsGates(t: Tables, auth: Result<ContextUser, HttpError>, parsed: Option<TenantQuery>,
                         ordered: seq<Tenant>)
    requires Parsed(parsed)
    ensures var r := ListTenants(t, auth, parsed, ordered);
            && (auth.Failure? ==> r == Failure(auth.error))
            && (auth.Success? && !Tenancy.IsSuperAdmin(Some(auth.value)) ==> r == Failure(Tenancy.SuperAdminRequired))
            && (auth.Success? && Tenancy.IsSuperAdmin(Some(auth.value))
                && Gate.Authorize(t, Some(auth.value), RequiredPermission).Fail? ==>
                  r == Failure(Gate.MissingPermission(RequiredPermission)))
            && (Tenancy.AdmitSuperAdmin(t, auth, RequiredPermission) == Pass && parsed.None? ==>
                  r == Failure(Gate.InvalidQuery))
  {
    if auth.Success? && Tenancy.IsSuperAdmin(Some(auth.value)) {
      Gate.AuthorizeMeaning(t, Some(auth.value), RequiredPermission);
    }
  }

  /**
   * As written a fractional page passes the schema: with limit 1 it reaches
   * the database as a fractional `skip` and the request fails with a 500;
   * with limit 20 it is served from row 10, labelled page 1.5.
   */
  lemma FractionalPageAsWritten(t: Tables, auth: Result<ContextUser, HttpError>, ordered: seq<Tenant>)
    requires Tenancy.AdmitSuperAdmin(t, auth, RequiredPermission) == Pass
    ensures ParseTenantQuery(PageQuery(Number(1.5), Number(1.0), None)).Some?
    ensures ListTenants(t, auth, ParseTenantQuery(PageQuery(Number(1.5), Number(1.0), None)), ordered)
            == Failure(QueryEngineError)
    ensures var r := ListTenants(t, auth, ParseTenantQuery(PageQuery(Number(1.5), Missing, None)), ordered);
            r.Success? && r.value.meta.page == 1.5
            && r.value == PageOf(t, ordered, 10, 20, TenantQuery(1.5, 20.0, None))
  {
    assert !IsInteger((1.5 - 1.0) * 1.0) by { assert (0.5).Floor == 0; }
    assert IsInteger(1.0) by { assert (1.0).Floor == 1; }
    assert IsInteger((1.5 - 1.0) * 20.0) && ((1.5 - 1.0) * 20.0).Floor == 10 by { assert (10.0).Floor == 10; }
    assert IsInteger(20.0) && (20.0).Floor == 20 by { assert (20.0).Floor == 20; }
  }

  /** With `.int()` in the schema a fractional page is a 400. */
  lemma FractionalPageRefused(t: Tables, auth: Result<ContextUser, HttpError>, ordered: seq<Tenant>)
    requires Tenancy.AdmitSuperAdmin(t, auth, RequiredPermission) == Pass
    ensures ParseTenantQueryInt(PageQuery(Number(1.5), Number(1.0), None)).None?
    ensures ListTenants(t, auth, ParseTenantQueryInt(PageQuery(Number(1.5), Number(1.0), None)), ordered)
            == Failure(Gate.InvalidQuery)
  {
    assert !IsInteger(1.5) by { assert (1.5).Floor == 1; }
  }

  /** With integral numbers the database takes `skip = (page - 1) * limit` and `take = limit`. */
  lemma IntegralEngineArgs(q: TenantQuery)
    requires q.page >= 1.0 && q.limit >= 1.0 && IsInteger(q.page) && IsInteger(q.limit)
    ensures q.page.Floor >= 1 && q.limit.Floor >= 1
    ensures EngineArgs(q) == Some((Skip(q.page.Floor, q.limit.Floor), q.limit.Floor))
  {
    var m, n := q.page.Floor, q.limit.Floor;
    OffsetIsSkip(q);
    EngineIntOfNat(Skip(m, n));
    EngineIntOfNat(n);
    EngineArgsOf(q, Skip(m, n), n);
  }

  /** The database takes the two numbers the query engine accepted. */
  lemma EngineArgsOf(q: TenantQuery, skip: nat, take: nat)
    requires q.limit >= 1.0
    requires EngineInt((q.page - 1.0) * q.limit) == Some(skip) && EngineInt(q.limit) == Some(take)
    ensures EngineArgs(q) == Some((skip, take))
  {
  }

  /** With integral numbers `(page - 1) * limit` is the listing's `Skip`. */
  lemma OffsetIsSkip(q: TenantQuery)
    requires q.page >= 1.0 && q.limit >= 1.0 && IsInteger(q.page) && IsInteger(q.limit)
    ensures q.page.Floor >= 1 && q.limit.Floor >= 1
    ensures (q.page - 1.0) * q.limit == Skip(q.page.Floor, q.limit.Floor) as real
    ensures q.limit == q.limit.Floor as real
  {
    var m, n := q.page.Floor, q.limit.Floor;
    assert q.page == m as real && q.limit == n as real;
    assert q.page - 1.0 == (m - 1) as real;
    ProductAsReal(m - 1, n);
  }

  /** A whole number reaches the database unchanged. */
  lemma EngineIntOfNat(k: nat)
    ensures EngineInt(k as real) == Some(k)
  {
  }

  /** The product of two integers is the same taken as integers or as reals. */
  lemma ProductAsReal(a: int, b: int)
    ensures (a as real) * (b as real) == (a * b) as real
  {
  }

  /** With integral numbers the query always runs. */
  lemma IntegralQueryRuns(t: Tables, ordered: seq<Tenant>, q: TenantQuery)
    requires q.page >= 1.0 && q.limit >= 1.0 && IsInteger(q.page) && IsInteger(q.limit)
    ensures q.page.Floor >= 1 && q.limit.Floor >= 1
    ensures RunQuery(t, ordered, q)
            == Success(PageOf(t, ordered, Skip(q.page.Floor, q.limit.Floor), q.limit.Floor, q))
  {
    IntegralEngineArgs(q);
  }

  /**
   * With `.int()` in the schema an admitted request with an accepted query
   * always gets its page: no 500.
   */
  lemma IntegerQueryServes(t: Tables, auth: Result<ContextUser, HttpError>, q: PageQuery, ordered: seq<Tenant>)
    requires Tenancy.AdmitSuperAdmin(t, auth, RequiredPermission) == Pass
    ensures var r := ListTenants(t, auth, ParseTenantQueryInt(q), ordered);
            && (r.Failure? <==> ParseTenantQueryInt(q).None?)
            && (r.Failure? ==> r.error == Gate.InvalidQuery)
            && (r.Success? ==>
                  var p := ParseTenantQueryInt(q).value;
                  p.page.Floor >= 1 && p.limit.Floor >= 1
                  && r.value == PageOf(t, ordered, Skip(p.page.Floor, p.limit.Floor), p.limit.Floor, p))
  {
    var parsed := ParseTenantQueryInt(q);
    if parsed.Some? {
      IntegralQueryRuns(t, ordered, parsed.value);
    }
  }

  /**
   * A page holds at most `limit` stored tenants matching the search, taken
   * from row `skip` on of the newest-first order and so newest first
   * themselves, each with its user count; `total` counts every matching
   * tenant and `totalPages` is its ceiling over `limit`.
   */
  lemma PageOfMeaning(t: Tables, ordered: seq<Tenant>, skip: nat, limit: nat, q: TenantQuery)
    requires NewestFirst(t, ordered) && limit >= 1
    ensures var r := PageOf(t, ordered, skip, limit, q);
            var matching := Matching(ordered, q.search, TenantMatches);
            && r.meta.page == q.page && r.meta.limit == q.limit
            && r.meta.total == |Matching(t.tenants, q.search, TenantMatches)|
            && r.meta.totalPages == TotalPages(r.meta.total, limit)
            && |r.data| <= limit
            && (forall i :: 0 <= i < |r.data| ==>
                  var x := matching[skip + i];
                  && x in t.tenants && (Searching(q.search) ==> TenantMatches(x, q.search.value))
                  && r.data[i] == TenantItem(x, UserCount(t, x.id)))
            && (forall i, j :: 0 <= i < j < |r.data| ==> r.data[i].tenant.createdAt >= r.data[j].tenant.createdAt)
  {
    MatchingOrderFree(ordered, t.tenants, q.search, TenantMatches);
    var rows := Window(Matching(ordered, q.search, TenantMatches), skip, limit);
    PageKeepsOrder(ordered, q.search, TenantMatches, skip, limit, NewerOrSame);
    assert forall i, j :: 0 <= i < j < |rows| ==> NewerOrSame(rows[i], rows[j]);
  }
}
