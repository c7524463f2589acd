/**
 * The authentication and authorisation gate the API handlers call first
 * (server/utils/auth.ts): `requireAuth`, `requirePermission`, and the body
 * and query validators.
 */
module Gate {
  import opened Wrappers
  import opened Http
  import opened Db
  import opened Jwt
  import Permissions

  const AccessTokenRequired := HttpError(401, "Access token is required")
  const InvalidAccessToken := HttpError(401, "Invalid or expired access token")
  const UserNotFoundOrInactive := HttpError(401, "User not found or inactive")
  const AuthenticationRequired := HttpError(401, "Authentication required")
  const ValidationFailed := HttpError(400, "Validation failed")
  const InvalidQuery := HttpError(400, "Invalid query parameters")

  function MissingPermission(permission: string): HttpError
  {
    HttpError(403, "Missing required permission: " + permission)
  }

  /**
   * The decision `requireAuth` takes: the bearer token must be present and
   * non-empty, verify under the access secret, and name an active user; the
   * context user then carries only that user's id, email and name.
   */
  function Authenticate(t: Tables, cfg: Config, authorization: Option<string>, now: nat)
    : (r: Result<ContextUser, HttpError>)
    ensures r == Failure(AccessTokenRequired)
            <==> ExtractAccessToken(authorization) in {None, Some("")}
    ensures r.Success? ==>
              exists claims, u :: VerifyAccessToken(cfg, ExtractAccessToken(authorization).value, now) == Some(claims)
                && UserById(t, claims.userId) == Some(u) && u.isActive
                && r.value == ContextUser(u.id, u.email, u.name, None, None)
    ensures r.Failure? ==> r.error.status == 401
    // a present token is refused as invalid exactly when it does not verify
    ensures var token := ExtractAccessToken(authorization);
            token.Some? && token.value != "" ==>
              (r == Failure(InvalidAccessToken) <==> VerifyAccessToken(cfg, token.value, now).None?)
    // a verifying token succeeds exactly when it names an active user, and
    // is otherwise refused as naming no active user
    ensures var token := ExtractAccessToken(authorization);
            token.Some? && token.value != "" && VerifyAccessToken(cfg, token.value, now).Some? ==>
              var user := UserById(t, VerifyAccessToken(cfg, token.value, now).value.userId);
              && (r.Success? <==> user.Some? && user.value.isActive)
              && (r.Failure? <==> r == Failure(UserNotFoundOrInactive))
  {
    var token := ExtractAccessToken(authorization);
    if token.None? || token.value == "" then Failure(AccessTokenRequired)
    else
      match VerifyAccessToken(cfg, token.value, now)
      case None => Failure(InvalidAccessToken)
      case Some(claims) =>
        match UserById(t, claims.userId)
        case None => Failure(UserNotFoundOrInactive)
        case Some(u) =>
          if !u.isActive then Failure(UserNotFoundOrInactive)
          else Success(ContextUser(u.id, u.email, u.name, None, None))
  }

  /**
   * An access token signed for an active user authenticates that user until
   * it expires, and is refused afterwards.
   */
  lemma SignedTokenAuthenticates(t: Tables, cfg: Config, u: User, issued: nat, now: nat)
    requires u in t.users && UserById(t, u.id) == Some(u) && u.isActive
    requires AccessLifetime(cfg).Some?
    ensures var token := SignAccessToken(cfg, Payload(u.id, u.email), issued);
            Authenticate(t, cfg, Some(BearerPrefix + token), now)
            == if now / 1000 < TokenExp(AccessLifetime(cfg).value, issued)
               then Success(ContextUser(u.id, u.email, u.name, None, None))
               else Failure(InvalidAccessToken)
  {
    var token := SignAccessToken(cfg, Payload(u.id, u.email), issued);
    ExtractBearerRoundTrip(token);
    SignVerifyRoundTrip(cfg.accessSecret, Payload(u.id, u.email), AccessLifetime(cfg).value, issued, "", now);
  }

  /** The context user after an authentication attempt: set on success, untouched otherwise. */
  function AttachUser(before: Option<ContextUser>, r: Result<ContextUser, HttpError>): Option<ContextUser>
  {
    if r.Success? then Some(r.value) else before
  }

  /** `requireAuth(event)`: on success the context user is set and returned. */
  method RequireAuth(event: HttpEvent, t: Tables, cfg: Config, now: nat)
    returns (r: Result<ContextUser, HttpError>)
    modifies event`contextUser
    ensures r == Authenticate(t, cfg, event.authorization, now)
    ensures event.contextUser == AttachUser(old(event.contextUser), r)
  {
    r := Authenticate(t, cfg, event.authorization, now);
    if r.Success? {
      event.contextUser := Some(r.value);
    }
  }

  /** The decision `requirePermission` takes, with no super-admin bypass. */
  function Authorize(t: Tables, user: Option<ContextUser>, permission: string): Outcome<HttpError>
  {
    if user.None? then Fail(AuthenticationRequired)
    else if permission in Permissions.UserPermissions(t, user.value.id) then Pass
    else Fail(MissingPermission(permission))
  }

  /**
   * 401 without a context user, whatever the permission; otherwise 403 exactly
   * when none of the user's roles grants the permission.
   */
  lemma AuthorizeMeaning(t: Tables, user: Option<ContextUser>, permission: string)
    ensures user.None? ==> Authorize(t, user, permission) == Fail(AuthenticationRequired)
    ensures user.Some? ==>
              (Authorize(t, user, permission) == Pass
               <==> UserById(t, user.value.id).Some? && Permissions.Grants(t, user.value.id, permission))
    ensures user.Some? && Authorize(t, user, permission) != Pass ==>
              Authorize(t, user, permission) == Fail(MissingPermission(permission))
  {
    if user.Some? {
      Permissions.UserPermissionsAreGrants(t, user.value.id, permission);
    }
  }

  /** `requirePermission(event, permission)`. */
  method RequirePermission(event: HttpEvent, t: Tables, permission: string) returns (r: Outcome<HttpError>)
    ensures r == Authorize(t, event.contextUser, permission)
  {
    var user := event.contextUser;
    if user.None? {
      return Fail(AuthenticationRequired);
    }
    var allowed := Permissions.HasPermission(t, user.value.id, permission);
    Permissions.UserPermissionsAreGrants(t, user.value.id, permission);
    r := if allowed then Pass else Fail(MissingPermission(permission));
  }

  /** `requireAuth` followed by `requirePermission(permission)`, as the API handlers open. */
  function Admit(t: Tables, cfg: Config, authorization: Option<string>, now: nat, permission: string)
    : (r: Outcome<HttpError>)
    ensures Authenticate(t, cfg, authorization, now).Failure? ==>
              r == Fail(Authenticate(t, cfg, authorization, now).error)
    ensures Authenticate(t, cfg, authorization, now).Success? ==>
              r == Authorize(t, Some(Authenticate(t, cfg, authorization, now).value), permission)
  {
    match Authenticate(t, cfg, authorization, now)
    case Failure(e) => Fail(e)
    case Success(user) => Authorize(t, Some(user), permission)
  }

  /**
   * A request is admitted exactly when its bearer token names an active user
   * who holds the permission; a refusal is a 401 or a 403.
   */
  lemma AdmitMeaning(t: Tables, cfg: Config, authorization: Option<string>, now: nat, permission: string)
    ensures Admit(t, cfg, authorization, now, permission) == Pass
            <==> exists user :: Authenticate(t, cfg, authorization, now) == Success(user)
                   && Permissions.Grants(t, user.id, permission)
    ensures Admit(t, cfg, authorization, now, permission).Fail? ==>
              Admit(t, cfg, authorization, now, permission).error.status in {401, 403}
  {
    var a := Authenticate(t, cfg, authorization, now);
    if a.Success? {
      AuthorizeMeaning(t, Some(a.value), permission);
    }
  }

  /** `validateBody(event, schema)`: `parse` is the schema's `safeParse`. */
  function ValidateBody<B, T>(body: B, parse: B -> Option<T>): (r: Result<T, HttpError>)
    ensures r.Success? <==> parse(body).Some?
    ensures r.Success? ==> r.value == parse(body).value
    ensures r.Failure? ==> r.error == ValidationFailed
  {
    match parse(body)
    case None => Failure(ValidationFailed)
    case Some(v) => Success(v)
  }

  /** `validateQuery(event, schema)`: `parse` is the schema's `safeParse`. */
  function ValidateQuery<Q, T>(query: Q, parse: Q -> Option<T>): (r: Result<T, HttpError>)
    ensures r.Success? <==> parse(query).Some?
    ensures r.Success? ==> r.value == parse(query).value
    ensures r.Failure? ==> r.error == InvalidQuery
  {
    match parse(query)
    case None => Failure(InvalidQuery)
    case Some(v) => Success(v)
  }
}
