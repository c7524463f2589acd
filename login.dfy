/** `POST /api/auth/login` (server/api/auth/login.post.ts). */
module Login {
  import opened Wrappers
  import opened Http
  import opened Db
  import opened Jwt
  import opened Schemas
  import Password
  import Gate
  import RefreshStore

  const InvalidCredentials := HttpError(401, "Invalid email or password")
  const AccountDeactivated := HttpError(401, "Account is deactivated")

  /** The response body: the access token and the user's id, email and name, never the password. */
  datatype LoginResponse = LoginResponse(accessToken: string, userId: string, email: string, name: Option<string>)

  /**
   * The login handler as a function of the tables. `jti` is the id the
   * refresh token is signed with (`""` in the source).
   */
  function LoginStep(t: Tables, cfg: Config, fmt: Formats, body: LoginBody, now: nat, jti: string)
    : Effect<LoginResponse>
  {
    if Gate.ValidateBody(body, Accepting((b: LoginBody) => LoginAccepts(fmt, b))).Failure? then
      Refuse(t, Gate.ValidationFailed)
    else match UserByEmail(t, body.email)
      case None => Refuse(t, InvalidCredentials)
      case Some(u) =>
        if !u.isActive then Refuse(t, AccountDeactivated)
        else if !Password.VerifyPassword(body.password, u.password) then Refuse(t, InvalidCredentials)
        else if !CanSign(cfg) then Refuse(t, SigningFailed)
        else
          var payload := Payload(u.id, u.email);
          var refresh := SignRefreshToken(cfg, payload, now, jti);
          match RefreshStore.Issue(t.refreshTokens, refresh, u.id, RefreshTokenExpiry(cfg, false, now))
          case None => Refuse(t, ConstraintViolation)
          case Some(store) =>
            Effect(Success(LoginResponse(SignAccessToken(cfg, payload, now), u.id, u.email, u.name)),
                   t.(refreshTokens := store),
                   Written(RefreshTokenCookie(cfg, refresh, false)))
  }

  /**
   * Every refusal leaves the tables and the cookie alone. An unknown email and
   * a wrong password give the same 401; an inactive account gives its own
   * 401 whatever the password. When signing throws, the correct password
   * gets a 500 and no refresh record is stored.
   */
  lemma LoginRefusals(t: Tables, cfg: Config, fmt: Formats, body: LoginBody, now: nat, jti: string)
    ensures var e := LoginStep(t, cfg, fmt, body, now, jti);
            e.result.Failure? ==> e.tables == t && e.cookie == Untouched
    ensures LoginAccepts(fmt, body) && UserByEmail(t, body.email).None? ==>
              LoginStep(t, cfg, fmt, body, now, jti).result == Failure(InvalidCredentials)
    ensures LoginAccepts(fmt, body) && UserByEmail(t, body.email).Some?
            && UserByEmail(t, body.email).value.isActive
            && !Password.VerifyPassword(body.password, UserByEmail(t, body.email).value.password) ==>
              LoginStep(t, cfg, fmt, body, now, jti).result == Failure(InvalidCredentials)
    ensures LoginAccepts(fmt, body) && UserByEmail(t, body.email).Some?
            && !UserByEmail(t, body.email).value.isActive ==>
              LoginStep(t, cfg, fmt, body, now, jti).result == Failure(AccountDeactivated)
    ensures LoginAccepts(fmt, body) && UserByEmail(t, body.email).Some?
            && UserByEmail(t, body.email).value.isActive
            && Password.VerifyPassword(body.password, UserByEmail(t, body.email).value.password)
            && !CanSign(cfg) ==>
              LoginStep(t, cfg, fmt, body, now, jti).result == Failure(SigningFailed)
  {
  }

  /**
   * A successful login found an active user whose password matches, and added
   * exactly one unrevoked refresh record for that user, expiring after the
   * default refresh lifetime, under the token set in the cookie; that token
   * verifies as the user's until it expires.
   */
  lemma LoginSuccess(t: Tables, cfg: Config, fmt: Formats, body: LoginBody, now: nat, jti: string)
    requires LoginStep(t, cfg, fmt, body, now, jti).result.Success?
    ensures CanSign(cfg)
    ensures var e := LoginStep(t, cfg, fmt, body, now, jti);
            var u := UserByEmail(t, body.email).value;
            var token := SignRefreshToken(cfg, Payload(u.id, u.email), now, jti);
            && UserByEmail(t, body.email).Some? && u.isActive
            && Password.VerifyPassword(body.password, u.password)
            && e.result.value == LoginResponse(SignAccessToken(cfg, Payload(u.id, u.email), now), u.id, u.email, u.name)
            && token !in t.refreshTokens
            && e.tables == t.(refreshTokens := t.refreshTokens[token := RefreshRecord(u.id, now + ParseDuration(RefreshExpiresIn(cfg)), None)])
            && e.cookie == Written(RefreshTokenCookie(cfg, token, false))
            && (now / 1000 < TokenExp(RefreshLifetime(cfg).value, now) ==>
                  VerifyRefreshToken(cfg, token, now) == Some(Claims(u.id, u.email, now / 1000, TokenExp(RefreshLifetime(cfg).value, now), jti)))
  {
    var u := UserByEmail(t, body.email).value;
    assert u.isActive && Password.VerifyPassword(body.password, u.password) && CanSign(cfg);
    var token := SignRefreshToken(cfg, Payload(u.id, u.email), now, jti);
    assert RefreshStore.Issue(t.refreshTokens, token, u.id, RefreshTokenExpiry(cfg, false, now)).Some?;
    SignVerifyRoundTrip(cfg.refreshSecret, Payload(u.id, u.email), RefreshLifetime(cfg).value, now, jti, now);
  }

  /** A login keeps the refresh-token foreign key: the new record's owner exists. */
  lemma LoginKeepsOwners(t: Tables, cfg: Config, fmt: Formats, body: LoginBody, now: nat, jti: string)
    requires OwnersExist(t)
    ensures OwnersExist(LoginStep(t, cfg, fmt, body, now, jti).tables)
  {
  }

  /** The handler: each check in the source's order, then the insert and the cookie. */
  method HandleLogin(db: Database, event: HttpEvent, cfg: Config, fmt: Formats, body: LoginBody,
                     now: nat, jti: string)
    returns (r: Result<LoginResponse, HttpError>)
    modifies db, event`refreshCookieWrite
    ensures var e := LoginStep(old(db.Snapshot()), cfg, fmt, body, now, jti);
            r == e.result && db.Snapshot() == e.tables
            && event.refreshCookieWrite == if e.cookie == Untouched then old(event.refreshCookieWrite) else e.cookie
  {
    if !LoginAccepts(fmt, body) {
      return Failure(Gate.ValidationFailed);
    }
    var user := UserByEmail(db.Snapshot(), body.email);
    if user.None? {
      return Failure(InvalidCredentials);
    }
    var u := user.value;
    if !u.isActive {
      return Failure(AccountDeactivated);
    }
    if !Password.VerifyPassword(body.password, u.password) {
      return Failure(InvalidCredentials);
    }
    if !CanSign(cfg) {
      return Failure(SigningFailed);
    }
    var payload := Payload(u.id, u.email);
    var accessToken := SignAccessToken(cfg, payload, now);
    var refreshToken := SignRefreshToken(cfg, payload, now, jti);
    if refreshToken in db.refreshTokens {
      return Failure(ConstraintViolation);
    }
    db.refreshTokens := db.refreshTokens[refreshToken := RefreshRecord(u.id, RefreshTokenExpiry(cfg, false, now), None)];
    SetRefreshTokenCookie(event, cfg, refreshToken, false);
    r := Success(LoginResponse(accessToken, u.id, u.email, u.name));
  }
}
