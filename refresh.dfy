/**
 * `POST /api/auth/refresh` (server/api/auth/refresh.post.ts): refresh-token
 * rotation with reuse detection.
 */
module Refresh {
  import opened Wrappers
  import opened Http
  import opened Db
  import opened Jwt
  import RefreshStore
  import Login
  import Schemas

  const RefreshTokenRequired := HttpError(401, "Refresh token is required")
  const InvalidRefreshToken := HttpError(401, "Invalid or expired refresh token")
  const RefreshTokenNotFound := HttpError(401, "Refresh token not found")
  const TokenRevoked := HttpError(401, "Token has been revoked")
  const RefreshTokenExpired := HttpError(401, "Refresh token has expired")
  const UserDeactivated := HttpError(401, "User account is deactivated")

  /**
   * The refresh handler as a function of the tables: `cookie` is the
   * `refresh_token` request cookie, `jti` the id the new refresh token is
   * signed with (`""` in the source). The success value is the new access
   * token.
   */
  function RefreshStep(t: Tables, cfg: Config, cookie: Option<string>, now: nat, jti: string): Effect<string>
    requires OwnersExist(t)
  {
    match RefreshTokenFromCookie(cookie)
    case None => Refuse(t, RefreshTokenRequired)
    case Some(token) =>
      if VerifyRefreshToken(cfg, token, now).None? then Refuse(t, InvalidRefreshToken)
      else if token !in t.refreshTokens then Refuse(t, RefreshTokenNotFound)
      else CheckStored(t, cfg, token, now, jti)
  }

  /**
   * The checks on the stored record, in the source's order: revoked, expired,
   * owner inactive; then the record is revoked before the new tokens are
   * signed, so a signing failure leaves it revoked.
   */
  function CheckStored(t: Tables, cfg: Config, token: string, now: nat, jti: string): Effect<string>
    requires OwnersExist(t) && token in t.refreshTokens
  {
    var stored := t.refreshTokens[token];
    if stored.revokedAt.Some? then
      Effect(Failure(TokenRevoked),
             t.(refreshTokens := RefreshStore.RevokeAllForUser(t.refreshTokens, stored.userId, now)),
             Untouched)
    else if stored.expiresAt < now then Refuse(t, RefreshTokenExpired)
    else if !UserById(t, stored.userId).value.isActive then Refuse(t, UserDeactivated)
    else if !CanSign(cfg) then
      Effect(Failure(SigningFailed), t.(refreshTokens := RefreshStore.RevokeToken(t.refreshTokens, token, now)), Untouched)
    else
      var payload := RotationPayload(t, token);
      Rotate(t, cfg, token, now, SignRefreshToken(cfg, payload, now, jti), SignAccessToken(cfg, payload, now))
  }

  /** Revokes the presented record, then stores `newRefresh` and answers `accessToken`. */
  function Rotate(t: Tables, cfg: Config, token: string, now: nat, newRefresh: string, accessToken: string)
    : Effect<string>
    requires token in t.refreshTokens
  {
    var revoked := RefreshStore.RevokeToken(t.refreshTokens, token, now);
    match RefreshStore.Issue(revoked, newRefresh, t.refreshTokens[token].userId, RefreshTokenExpiry(cfg, false, now))
    case None => Effect(Failure(ConstraintViolation), t.(refreshTokens := revoked), Untouched)
    case Some(store) =>
      Effect(Success(accessToken), t.(refreshTokens := store), Written(RefreshTokenCookie(cfg, newRefresh, false)))
  }

  /** The payload both new tokens are signed from: the record's user id and the owner's email. */
  function RotationPayload(t: Tables, token: string): Payload
    requires OwnersExist(t) && token in t.refreshTokens
  {
    var stored := t.refreshTokens[token];
    Payload(stored.userId, UserById(t, stored.userId).value.email)
  }

  /**
   * A missing cookie, a token that does not verify and a token that is not
   * stored are refused with 401 and change nothing; so are an expired token
   * and a deactivated owner. Expiry is strict: a record expiring exactly now
   * is not refused as expired.
   */
  lemma RefreshRefusals(t: Tables, cfg: Config, cookie: Option<string>, now: nat, jti: string)
    requires OwnersExist(t)
    ensures var e := RefreshStep(t, cfg, cookie, now, jti);
            && (RefreshTokenFromCookie(cookie).None? ==> e == Refuse(t, RefreshTokenRequired))
            && (e.result.Failure? && e.result.error != TokenRevoked && e.result.error != ConstraintViolation ==>
                  e.tables == t && e.cookie == Untouched && e.result.error.status == 401)
            && (e.result == Failure(RefreshTokenExpired) ==>
                  t.refreshTokens[cookie.value].expiresAt < now)
  {
    match RefreshTokenFromCookie(cookie)
    case None =>
    case Some(token) =>
      if VerifyRefreshToken(cfg, token, now).Some? && token in t.refreshTokens {
        CheckStoredRefusals(t, cfg, token, now, jti);
      }
  }

  /** The checks on the stored record refuse with 401 and change nothing, except on reuse. */
  lemma CheckStoredRefusals(t: Tables, cfg: Config, token: string, now: nat, jti: string)
    requires OwnersExist(t) && token in t.refreshTokens
    ensures var e := CheckStored(t, cfg, token, now, jti);
            && (e.result.Failure? && e.result.error != TokenRevoked && e.result.error != ConstraintViolation ==>
                  e.tables == t && e.cookie == Untouched && e.result.error.status == 401)
            && (e.result == Failure(RefreshTokenExpired) ==> t.refreshTokens[token].expiresAt < now)
  {
    var stored := t.refreshTokens[token];
    if stored.revokedAt.None? && now <= stored.expiresAt && UserById(t, stored.userId).value.isActive && CanSign(cfg) {
      var payload := RotationPayload(t, token);
      RotateOutcome(t, cfg, token, now, SignRefreshToken(cfg, payload, now, jti), SignAccessToken(cfg, payload, now));
    }
  }

  /** A rotation either succeeds or hits the unique token column. */
  lemma RotateOutcome(t: Tables, cfg: Config, token: string, now: nat, newRefresh: string, accessToken: string)
    requires token in t.refreshTokens
    ensures var e := Rotate(t, cfg, token, now, newRefresh, accessToken);
            e.result.Success? || e.result == Failure(ConstraintViolation)
  {
  }

  /**
   * Reuse detection: a stored token that was already revoked, expired or not,
   * revokes every record of its user (including revoked ones) and leaves
   * other users' records and the other tables alone.
   */
  lemma ReuseRevokesAll(t: Tables, cfg: Config, token: string, now: nat, jti: string)
    requires OwnersExist(t)
    requires token != "" && VerifyRefreshToken(cfg, token, now).Some?
    requires RefreshStore.Revoked(t.refreshTokens, token)
    ensures var e := RefreshStep(t, cfg, Some(token), now, jti);
            var userId := t.refreshTokens[token].userId;
            && e.result == Failure(TokenRevoked) && e.cookie == Untouched
            && e.tables == t.(refreshTokens := e.tables.refreshTokens)
            && e.tables.refreshTokens.Keys == t.refreshTokens.Keys
            && (forall k :: k in t.refreshTokens && t.refreshTokens[k].userId == userId ==>
                  e.tables.refreshTokens[k] == t.refreshTokens[k].(revokedAt := Some(now)))
            && (forall k :: k in t.refreshTokens && t.refreshTokens[k].userId != userId ==>
                  e.tables.refreshTokens[k] == t.refreshTokens[k])
  {
  }

  /** A successful refresh passed every check and rotated. */
  lemma RotationChecks(t: Tables, cfg: Config, token: string, now: nat, jti: string)
    requires OwnersExist(t)
    requires RefreshStep(t, cfg, Some(token), now, jti).result.Success?
    ensures token != "" && VerifyRefreshToken(cfg, token, now).Some? && token in t.refreshTokens
    ensures t.refreshTokens[token].revokedAt.None? && now <= t.refreshTokens[token].expiresAt
    ensures UserById(t, t.refreshTokens[token].userId).value.isActive
    ensures CanSign(cfg)
    ensures var payload := RotationPayload(t, token);
            RefreshStep(t, cfg, Some(token), now, jti)
            == Rotate(t, cfg, token, now, SignRefreshToken(cfg, payload, now, jti), SignAccessToken(cfg, payload, now))
  {
  }

  /** What a rotation that succeeds writes. */
  lemma RotateWrites(t: Tables, cfg: Config, token: string, now: nat, newRefresh: string, accessToken: string)
    requires OwnersExist(t) && token in t.refreshTokens
    requires Rotate(t, cfg, token, now, newRefresh, accessToken).result.Success?
    ensures newRefresh != token && newRefresh !in t.refreshTokens
    ensures var e := Rotate(t, cfg, token, now, newRefresh, accessToken);
            var stored := t.refreshTokens[token];
            e.tables == t.(refreshTokens := t.refreshTokens[token := stored.(revokedAt := Some(now))]
                                                 [newRefresh := RefreshRecord(stored.userId, now + ParseDuration(RefreshExpiresIn(cfg)), None)])
  {
    var stored := t.refreshTokens[token];
    var revoked := RefreshStore.RevokeToken(t.refreshTokens, token, now);
    assert revoked == t.refreshTokens[token := stored.(revokedAt := Some(now))];
    var expiresAt := RefreshTokenExpiry(cfg, false, now);
    assert newRefresh !in revoked;
    assert expiresAt == now + ParseDuration(RefreshExpiresIn(cfg));
    assert RefreshStore.Issue(revoked, newRefresh, stored.userId, expiresAt)
           == Some(revoked[newRefresh := RefreshRecord(stored.userId, expiresAt, None)]);
    assert Rotate(t, cfg, token, now, newRefresh, accessToken).tables
           == t.(refreshTokens := revoked[newRefresh := RefreshRecord(stored.userId, expiresAt, None)]);
  }

  /** What a rotation that succeeds answers: the access token, and the new refresh token in the cookie. */
  lemma RotateAnswers(t: Tables, cfg: Config, token: string, now: nat, newRefresh: string, accessToken: string)
    requires OwnersExist(t) && token in t.refreshTokens
    requires Rotate(t, cfg, token, now, newRefresh, accessToken).result.Success?
    ensures Rotate(t, cfg, token, now, newRefresh, accessToken).result.value == accessToken
    ensures Rotate(t, cfg, token, now, newRefresh, accessToken).cookie
            == Written(RefreshTokenCookie(cfg, newRefresh, false))
  {
  }

  /** A rotation keeps the owner of every stored token existing. */
  lemma RotateKeepsOwners(t: Tables, cfg: Config, token: string, now: nat, newRefresh: string, accessToken: string)
    requires OwnersExist(t) && token in t.refreshTokens
    ensures OwnersExist(Rotate(t, cfg, token, now, newRefresh, accessToken).tables)
  {
    var stored := t.refreshTokens[token];
    var revoked := RefreshStore.RevokeToken(t.refreshTokens, token, now);
    var issued := RefreshStore.Issue(revoked, newRefresh, stored.userId, RefreshTokenExpiry(cfg, false, now));
    var store := if issued.Some? then issued.value else revoked;
    assert Rotate(t, cfg, token, now, newRefresh, accessToken).tables == t.(refreshTokens := store);
    IssueKeepsOwners(t, store, stored.userId);
  }

  /** Tokens written for a stored token's owner, over the same users, keep every owner existing. */
  lemma IssueKeepsOwners(t: Tables, store: map<string, RefreshRecord>, userId: string)
    requires OwnersExist(t) && UserById(t, userId).Some?
    requires forall k :: k in store ==> (k in t.refreshTokens && store[k].userId == t.refreshTokens[k].userId)
                                        || store[k].userId == userId
    ensures OwnersExist(t.(refreshTokens := store))
  {
    forall k | k in store
      ensures UserById(t.(refreshTokens := store), store[k].userId).Some?
    {
      assert UserById(t.(refreshTokens := store), store[k].userId) == UserById(t, store[k].userId);
    }
  }

  /**
   * A successful rotation revoked the presented record and added exactly one
   * unrevoked record for the same user, expiring after the default refresh
   * lifetime; both new tokens are signed from the record's user id and the
   * owner's email.
   */
  lemma RotationSuccess(t: Tables, cfg: Config, token: string, now: nat, jti: string)
    requires OwnersExist(t)
    requires RefreshStep(t, cfg, Some(token), now, jti).result.Success?
    ensures token in t.refreshTokens
    ensures CanSign(cfg)
    ensures var e := RefreshStep(t, cfg, Some(token), now, jti);
            var stored := t.refreshTokens[token];
            var owner := UserById(t, stored.userId).value;
            var payload := Payload(stored.userId, owner.email);
            var newRefresh := SignRefreshToken(cfg, payload, now, jti);
            && stored.revokedAt.None? && now <= stored.expiresAt && owner.isActive
            && e.result.value == SignAccessToken(cfg, payload, now)
            && newRefresh != token && newRefresh !in t.refreshTokens
            && e.tables == t.(refreshTokens := t.refreshTokens[token := stored.(revokedAt := Some(now))]
                                                 [newRefresh := RefreshRecord(stored.userId, now + ParseDuration(RefreshExpiresIn(cfg)), None)])
            && e.cookie == Written(RefreshTokenCookie(cfg, newRefresh, false))
            && OwnersExist(e.tables)
  {
    RotationChecks(t, cfg, token, now, jti);
    var payload := RotationPayload(t, token);
    RotateWrites(t, cfg, token, now, SignRefreshToken(cfg, payload, now, jti), SignAccessToken(cfg, payload, now));
    RotateAnswers(t, cfg, token, now, SignRefreshToken(cfg, payload, now, jti), SignAccessToken(cfg, payload, now));
    RotateKeepsOwners(t, cfg, token, now, SignRefreshToken(cfg, payload, now, jti), SignAccessToken(cfg, payload, now));
  }

  /** After a successful rotation, presenting the old token again lands in reuse detection. */
  lemma OldTokenReused(t: Tables, cfg: Config, token: string, now: nat, later: nat, jti: string, jti2: string)
    requires OwnersExist(t)
    requires RefreshStep(t, cfg, Some(token), now, jti).result.Success?
    requires VerifyRefreshToken(cfg, token, later).Some?
    ensures var t' := RefreshStep(t, cfg, Some(token), now, jti).tables;
            OwnersExist(t') && RefreshStep(t', cfg, Some(token), later, jti2).result == Failure(TokenRevoked)
  {
    RotationSuccess(t, cfg, token, now, jti);
  }

  /**
   * Re-signing collides: when the token the rotation would issue is the one
   * presented, the presented record is revoked and the insert fails.
   */
  lemma ReSigningCollides(t: Tables, cfg: Config, token: string, now: nat, jti: string)
    requires OwnersExist(t) && token in t.refreshTokens && CanSign(cfg)
    requires SignRefreshToken(cfg, RotationPayload(t, token), now, jti) == token
    ensures Rotate(t, cfg, token, now, token, SignAccessToken(cfg, RotationPayload(t, token), now))
            == Effect(Failure(ConstraintViolation),
                      t.(refreshTokens := RefreshStore.RevokeToken(t.refreshTokens, token, now)), Untouched)
  {
  }

  /**
   * As written (no token id): the tables hold the record a login at `loginAt`
   * stores for `p`. A refresh in that same second signs the very same refresh
   * token again. The presented
   * record is revoked, the insert of the "new" token violates the unique
   * token column, the request fails and the cookie keeps the revoked token;
   * presenting it again then revokes every token of the user.
   */
  lemma SameSecondRefreshFails(t: Tables, cfg: Config, p: Payload, loginAt: nat, refreshAt: nat, later: nat)
    requires OwnersExist(t) && CanSign(cfg)
    requires SignRefreshToken(cfg, p, loginAt, "") in t.refreshTokens
    requires t.refreshTokens[SignRefreshToken(cfg, p, loginAt, "")]
             == RefreshRecord(p.userId, loginAt + ParseDuration(RefreshExpiresIn(cfg)), None)
    requires UserById(t, p.userId).Some? && UserById(t, p.userId).value.isActive
    requires UserById(t, p.userId).value.email == p.email
    requires loginAt <= refreshAt && loginAt / 1000 == refreshAt / 1000
    requires refreshAt / 1000 < TokenExp(RefreshLifetime(cfg).value, loginAt)
    requires later / 1000 < TokenExp(RefreshLifetime(cfg).value, loginAt)
    ensures var token := SignRefreshToken(cfg, p, loginAt, "");
            var refresh := RefreshStep(t, cfg, Some(token), refreshAt, "");
            && refresh.result == Failure(ConstraintViolation) && refresh.cookie == Untouched
            && OwnersExist(refresh.tables)
            && RefreshStep(refresh.tables, cfg, Some(token), later, "").result == Failure(TokenRevoked)
  {
    FreshRecordCollides(t, cfg, p, loginAt, refreshAt);
    var token := SignRefreshToken(cfg, p, loginAt, "");
    var t2 := t.(refreshTokens := RefreshStore.RevokeToken(t.refreshTokens, token, refreshAt));
    assert RefreshStore.Revoked(t2.refreshTokens, token);
    SignVerifyRoundTrip(cfg.refreshSecret, p, RefreshLifetime(cfg).value, loginAt, "", later);
    ReuseRevokesAll(t2, cfg, token, later, "");
  }

  /**
   * A login stores exactly such a record, so a refresh in the login's own
   * second fails on the token it was handed.
   */
  lemma SameSecondCollision(t: Tables, cfg: Config, fmt: Schemas.Formats, body: Schemas.LoginBody,
                            loginAt: nat, refreshAt: nat)
    requires OwnersExist(t) && UniqueUserIds(t) && CanSign(cfg)
    requires Login.LoginStep(t, cfg, fmt, body, loginAt, "").result.Success?
    requires loginAt <= refreshAt && loginAt / 1000 == refreshAt / 1000
    requires refreshAt / 1000 < TokenExp(RefreshLifetime(cfg).value, loginAt)
    ensures var login := Login.LoginStep(t, cfg, fmt, body, loginAt, "");
            var token := login.cookie.cookie.value;
            && OwnersExist(login.tables)
            && RefreshStep(login.tables, cfg, Some(token), refreshAt, "")
               == Effect(Failure(ConstraintViolation),
                         login.tables.(refreshTokens := RefreshStore.RevokeToken(login.tables.refreshTokens, token, refreshAt)),
                         Untouched)
  {
    Login.LoginSuccess(t, cfg, fmt, body, loginAt, "");
    Login.LoginKeepsOwners(t, cfg, fmt, body, loginAt, "");
    var login := Login.LoginStep(t, cfg, fmt, body, loginAt, "");
    var t1 := login.tables;
    var u := UserByEmail(t, body.email).value;
    var p := Payload(u.id, u.email);
    assert login.cookie.cookie.value == SignRefreshToken(cfg, p, loginAt, "");
    assert t1.users == t.users;
    UserByOwnId(t, u);
    FreshRecordCollides(t1, cfg, p, loginAt, refreshAt);
  }

  /**
   * The collision on the tables: the presented token was signed for `p` in
   * the current second and its record is the one a login stores.
   */
  lemma FreshRecordCollides(t: Tables, cfg: Config, p: Payload, loginAt: nat, refreshAt: nat)
    requires OwnersExist(t) && CanSign(cfg)
    requires SignRefreshToken(cfg, p, loginAt, "") in t.refreshTokens
    requires t.refreshTokens[SignRefreshToken(cfg, p, loginAt, "")]
             == RefreshRecord(p.userId, loginAt + ParseDuration(RefreshExpiresIn(cfg)), None)
    requires UserById(t, p.userId).Some? && UserById(t, p.userId).value.isActive
    requires UserById(t, p.userId).value.email == p.email
    requires loginAt <= refreshAt && loginAt / 1000 == refreshAt / 1000
    requires refreshAt / 1000 < TokenExp(RefreshLifetime(cfg).value, loginAt)
    ensures var token := SignRefreshToken(cfg, p, loginAt, "");
            && OwnersExist(t.(refreshTokens := RefreshStore.RevokeToken(t.refreshTokens, token, refreshAt)))
            && RefreshStep(t, cfg, Some(token), refreshAt, "")
               == Effect(Failure(ConstraintViolation),
                         t.(refreshTokens := RefreshStore.RevokeToken(t.refreshTokens, token, refreshAt)), Untouched)
  {
    var token := SignRefreshToken(cfg, p, loginAt, "");
    assert RotationPayload(t, token) == p;
    SignVerifyRoundTrip(cfg.refreshSecret, p, RefreshLifetime(cfg).value, loginAt, "", refreshAt);
    SameSecondSameToken(cfg, p, loginAt, refreshAt);
    DefaultExpiryCovers(cfg, loginAt, refreshAt);
    assert token != "";
    assert RefreshStep(t, cfg, Some(token), refreshAt, "")
           == Rotate(t, cfg, token, refreshAt, token, SignAccessToken(cfg, p, refreshAt));
    ReSigningCollides(t, cfg, token, refreshAt, "");
    RotateKeepsOwners(t, cfg, token, refreshAt, token, SignAccessToken(cfg, p, refreshAt));
  }

  /**
   * A refresh in the login's own second, while the token has not expired, is
   * within the stored record's lifetime. On the pattern `parseDuration`
   * accepts, the token's lifetime and the stored one agree, and an unexpired
   * token has at least a second; off the pattern the stored lifetime is the
   * 15-minute fallback, whatever the token's.
   */
  lemma DefaultExpiryCovers(cfg: Config, loginAt: nat, refreshAt: nat)
    requires RefreshLifetime(cfg).Some?
    requires loginAt <= refreshAt && loginAt / 1000 == refreshAt / 1000
    requires refreshAt / 1000 < TokenExp(RefreshLifetime(cfg).value, loginAt)
    ensures refreshAt <= RefreshTokenExpiry(cfg, false, loginAt)
  {
    var expiresIn := RefreshExpiresIn(cfg);
    ParseDurationValue(expiresIn);
    if MatchesDuration(expiresIn) {
      assert RefreshLifetime(cfg).value >= 1;
      assert ParseDuration(expiresIn) >= 1000;
    }
    assert refreshAt - loginAt < 1000;
  }

  /** No stored token carries the id `jti`: the id is freshly generated. */
  predicate UnusedTokenId(t: Tables, jti: string)
  {
    forall k :: k in t.refreshTokens ==> TokenId(k) != Some(jti)
  }

  /**
   * Corrected: signing the new refresh token with a fresh id, a refresh that
   * passes every check always rotates; the unique token column is never hit.
   */
  lemma FreshIdRotationSucceeds(t: Tables, cfg: Config, token: string, now: nat, jti: string)
    requires OwnersExist(t)
    requires UnusedTokenId(t, jti)
    requires token != "" && VerifyRefreshToken(cfg, token, now).Some? && token in t.refreshTokens
    requires t.refreshTokens[token].revokedAt.None? && now <= t.refreshTokens[token].expiresAt
    requires UserById(t, t.refreshTokens[token].userId).value.isActive
    requires CanSign(cfg)
    ensures RefreshStep(t, cfg, Some(token), now, jti).result.Success?
  {
    var stored := t.refreshTokens[token];
    var owner := UserById(t, stored.userId).value;
    var payload := Payload(stored.userId, owner.email);
    TokenIdOfSigned(cfg.refreshSecret, payload, RefreshLifetime(cfg).value, now, jti);
  }

  /**
   * When signing throws, a refresh that passed every check has already
   * revoked the presented record: it fails with 500, the cookie keeps the
   * revoked token, and presenting that token again revokes every token of
   * the user.
   */
  lemma SigningFailureRevokes(t: Tables, cfg: Config, token: string, now: nat, later: nat, jti: string, jti2: string)
    requires OwnersExist(t) && !CanSign(cfg)
    requires token != "" && VerifyRefreshToken(cfg, token, now).Some? && token in t.refreshTokens
    requires t.refreshTokens[token].revokedAt.None? && now <= t.refreshTokens[token].expiresAt
    requires UserById(t, t.refreshTokens[token].userId).value.isActive
    requires VerifyRefreshToken(cfg, token, later).Some?
    ensures var e := RefreshStep(t, cfg, Some(token), now, jti);
            && e == Effect(Failure(SigningFailed),
                           t.(refreshTokens := RefreshStore.RevokeToken(t.refreshTokens, token, now)), Untouched)
            && OwnersExist(e.tables)
            && RefreshStep(e.tables, cfg, Some(token), later, jti2).result == Failure(TokenRevoked)
  {
    var t2 := t.(refreshTokens := RefreshStore.RevokeToken(t.refreshTokens, token, now));
    IssueKeepsOwners(t, t2.refreshTokens, t.refreshTokens[token].userId);
    assert RefreshStore.Revoked(t2.refreshTokens, token);
    ReuseRevokesAll(t2, cfg, token, later, jti2);
  }

  /** The handler: each check in the source's order, then revoke, sign, insert and set the cookie. */
  method HandleRefresh(db: Database, event: HttpEvent, cfg: Config, now: nat, jti: string)
    returns (r: Result<string, HttpError>)
    requires OwnersExist(db.Snapshot())
    modifies db, event`refreshCookieWrite
    ensures var e := RefreshStep(old(db.Snapshot()), cfg, event.refreshCookie, now, jti);
            r == e.result && db.Snapshot() == e.tables
            && event.refreshCookieWrite == if e.cookie == Untouched then old(event.refreshCookieWrite) else e.cookie
  {
    var currentToken := RefreshTokenFromCookie(event.refreshCookie);
    if currentToken.None? {
      return Failure(RefreshTokenRequired);
    }
    var token := currentToken.value;
    if VerifyRefreshToken(cfg, token, now).None? {
      return Failure(InvalidRefreshToken);
    }
    if token !in db.refreshTokens {
      return Failure(RefreshTokenNotFound);
    }
    var stored := db.refreshTokens[token];
    var owner := UserById(db.Snapshot(), stored.userId).value;
    if stored.revokedAt.Some? {
      db.refreshTokens := RefreshStore.RevokeAllForUser(db.refreshTokens, stored.userId, now);
      return Failure(TokenRevoked);
    }
    if stored.expiresAt < now {
      return Failure(RefreshTokenExpired);
    }
    if !owner.isActive {
      return Failure(UserDeactivated);
    }
    db.refreshTokens := db.refreshTokens[token := stored.(revokedAt := Some(now))];
    if !CanSign(cfg) {
      return Failure(SigningFailed);
    }
    var payload := Payload(stored.userId, owner.email);
    var newAccessToken := SignAccessToken(cfg, payload, now);
    var newRefreshToken := SignRefreshToken(cfg, payload, now, jti);
    if newRefreshToken in db.refreshTokens {
      return Failure(ConstraintViolation);
    }
    db.refreshTokens := db.refreshTokens[newRefreshToken := RefreshRecord(stored.userId, RefreshTokenExpiry(cfg, false, now), None)];
    SetRefreshTokenCookie(event, cfg, newRefreshToken, false);
    r := Success(newAccessToken);
  }
}
