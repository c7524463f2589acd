/** `POST /api/auth/logout` (server/api/auth/logout.post.ts): best-effort revocation. */
module Logout {
  import opened Wrappers
  import opened Http
  import opened Db
  import opened Jwt
  import RefreshStore
  import Refresh

  const LoggedOut: string := "Logged out successfully"

  /** The logout handler as a function of the tables: it never fails. */
  function LogoutStep(t: Tables, cfg: Config, cookie: Option<string>, now: nat): Effect<string>
  {
    var tables := match RefreshTokenFromCookie(cookie)
      case None => t
      case Some(token) => t.(refreshTokens := RefreshStore.RevokeToken(t.refreshTokens, token, now));
    Effect(Success(LoggedOut), tables, Deleted(RefreshCookieName, true, cfg.production, "lax", "/"))
  }

  /**
   * Logout always succeeds and deletes the cookie. With a cookie, the record
   * of that token (if any) is revoked now and every other record is kept;
   * without one, nothing changes. Only the refresh-token table is written.
   */
  lemma LogoutEffect(t: Tables, cfg: Config, cookie: Option<string>, now: nat)
    ensures var e := LogoutStep(t, cfg, cookie, now);
            && e.result == Success(LoggedOut)
            && e.cookie.Deleted? && e.cookie.name == RefreshCookieName
            && e.tables == t.(refreshTokens := e.tables.refreshTokens)
            && e.tables.refreshTokens.Keys == t.refreshTokens.Keys
            && (RefreshTokenFromCookie(cookie).None? ==> e.tables == t)
            && (RefreshTokenFromCookie(cookie).Some? ==>
                  var token := cookie.value;
                  && (token in t.refreshTokens ==> RefreshStore.Revoked(e.tables.refreshTokens, token)
                                                   && e.tables.refreshTokens[token].revokedAt == Some(now))
                  && (forall k :: k in t.refreshTokens && k != token ==> e.tables.refreshTokens[k] == t.refreshTokens[k]))
  {
  }

  /** Logging out twice with the same cookie leaves the token revoked, stamped with the second time. */
  lemma LogoutTwice(t: Tables, cfg: Config, cookie: Option<string>, t1: nat, t2: nat)
    ensures var once := LogoutStep(t, cfg, cookie, t1).tables;
            LogoutStep(once, cfg, cookie, t2).tables == LogoutStep(t, cfg, cookie, t2).tables
  {
    if RefreshTokenFromCookie(cookie).Some? {
      RefreshStore.RevokeTokenTwice(t.refreshTokens, cookie.value, t1, t2);
    }
  }

  /** A token logged out is refused by a later refresh, which then revokes all of its user's tokens. */
  lemma LogoutThenRefreshIsReuse(t: Tables, cfg: Config, token: string, now: nat, later: nat, jti: string)
    requires OwnersExist(t) && token in t.refreshTokens && token != ""
    requires VerifyRefreshToken(cfg, token, later).Some?
    ensures var t' := LogoutStep(t, cfg, Some(token), now).tables;
            && OwnersExist(t')
            && Refresh.RefreshStep(t', cfg, Some(token), later, jti).result == Failure(Refresh.TokenRevoked)
  {
    var t' := LogoutStep(t, cfg, Some(token), now).tables;
    Refresh.ReuseRevokesAll(t', cfg, token, later, jti);
  }

  /** The handler: revoke when a cookie is present, then delete the cookie. */
  method HandleLogout(db: Database, event: HttpEvent, cfg: Config, now: nat) returns (r: Result<string, HttpError>)
    modifies db`refreshTokens, event`refreshCookieWrite
    ensures var e := LogoutStep(old(db.Snapshot()), cfg, event.refreshCookie, now);
            r == e.result && db.Snapshot() == e.tables && event.refreshCookieWrite == e.cookie
  {
    var currentToken := RefreshTokenFromCookie(event.refreshCookie);
    if currentToken.Some? {
      db.refreshTokens := RefreshStore.RevokeToken(db.refreshTokens, currentToken.value, now);
    }
    ClearRefreshTokenCookie(event, cfg);
    r := Success(LoggedOut);
  }
}
