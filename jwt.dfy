/**
 * Token durations, the refresh-token expiry and cookie, bearer-token
 * extraction, and signing/verification of access and refresh tokens
 * (server/utils/jwt.ts).
 *
 * Time is in milliseconds since the epoch, as `Date.now()` gives it; the
 * `iat` and `exp` claims inside a token are in whole seconds.
 */
module Jwt {
  import opened Wrappers
  import opened Text
  import opened Http
  import TokenCodec

  /**
   * The runtime configuration the token service reads. `otherExpiresIn` is
   * the signing library's reading, in whole seconds, of an `expiresIn` string
   * outside the pattern `parseDuration` accepts ("1w", "2 days", "100"), with
   * `None` where the library cannot read it and `jwt.sign` throws; the model
   * takes that reading as given.
   */
  datatype Config = Config(
    accessSecret: string, refreshSecret: string,
    accessExpiresIn: string, refreshExpiresIn: string,
    production: bool, otherExpiresIn: string -> Option<nat>)

  const FallbackDurationMs: nat := 900000
  const RememberMeDurationMs: nat := 2592000000
  const DefaultAccessExpiresIn: string := "15m"
  const DefaultRefreshExpiresIn: string := "7d"
  const RefreshCookieName: string := "refresh_token"
  /** The 500 an exception thrown by `jwt.sign` becomes. */
  const SigningFailed := HttpError(500, "Internal Server Error")
  const BearerPrefix: string := "Bearer "
  /** The longest string the signing library reads as a lifetime. */
  const MaxTimespanLength: nat := 100

  predicate IsDurationUnit(c: char) { c == 's' || c == 'm' || c == 'h' || c == 'd' }

  /** The pattern `^(\d+)(s|m|h|d)$`. */
  predicate MatchesDuration(s: string)
  {
    |s| >= 2 && AllDigits(s[..|s| - 1]) && IsDurationUnit(s[|s| - 1])
  }

  /** Milliseconds in one unit of a duration string. */
  function UnitMs(u: char): nat
    requires IsDurationUnit(u)
  {
    match u
    case 's' => 1000
    case 'm' => 60000
    case 'h' => 3600000
    case 'd' => 86400000
  }

  /**
   * The `switch (unit)` of `parseDuration`, including its `default` branch,
   * which `ParseDuration` never reaches: the pattern admits only the four units.
   */
  function UnitSwitch(value: nat, unit: char): nat
  {
    match unit
    case 's' => value * 1000
    case 'm' => value * 60 * 1000
    case 'h' => value * 60 * 60 * 1000
    case 'd' => value * 24 * 60 * 60 * 1000
    case _ => value * 60 * 1000
  }

  /** `parseDuration`: the pattern match, then the switch, with the 15-minute fallback. */
  function ParseDuration(duration: string): nat
  {
    if !MatchesDuration(duration) then 15 * 60 * 1000
    else UnitSwitch(DigitsValue(duration[..|duration| - 1]), duration[|duration| - 1])
  }

  /** Each of the four units multiplies the value by its length in milliseconds. */
  lemma UnitSwitchValue(value: nat, unit: char)
    requires IsDurationUnit(unit)
    ensures UnitSwitch(value, unit) == value * UnitMs(unit)
  {
  }

  /**
   * A duration matching the pattern is its numeral times its unit; anything
   * else falls back to 15 minutes.
   */
  lemma ParseDurationValue(duration: string)
    ensures !MatchesDuration(duration) ==> ParseDuration(duration) == FallbackDurationMs
    ensures MatchesDuration(duration) ==>
              ParseDuration(duration) == DigitsValue(duration[..|duration| - 1]) * UnitMs(duration[|duration| - 1])
  {
    if MatchesDuration(duration) {
      UnitSwitchValue(DigitsValue(duration[..|duration| - 1]), duration[|duration| - 1]);
    }
  }

  /** A numeral followed by a unit parses to that many units. */
  lemma ParseDurationOfNumeral(n: nat, u: char)
    requires IsDurationUnit(u)
    ensures MatchesDuration(NatToDigits(n) + [u])
    ensures ParseDuration(NatToDigits(n) + [u]) == n * UnitMs(u)
  {
    var s := NatToDigits(n) + [u];
    assert s[..|s| - 1] == NatToDigits(n);
    ParseDurationValue(s);
  }

  /** The configured defaults parse to 15 minutes and 7 days. */
  lemma DefaultDurations()
    ensures ParseDuration(DefaultAccessExpiresIn) == 900000
    ensures ParseDuration(DefaultRefreshExpiresIn) == 604800000
  {
    ParseDurationOfNumeral(15, 'm');
    ParseDurationOfNumeral(7, 'd');
    assert NatToDigits(15) + ['m'] == DefaultAccessExpiresIn;
    assert NatToDigits(7) + ['d'] == DefaultRefreshExpiresIn;
  }

  /** `config.jwtRefreshExpiresIn || '7d'`. */
  function RefreshExpiresIn(cfg: Config): string
  {
    if cfg.refreshExpiresIn == "" then DefaultRefreshExpiresIn else cfg.refreshExpiresIn
  }

  /** `config.jwtAccessExpiresIn || '15m'`. */
  function AccessExpiresIn(cfg: Config): string
  {
    if cfg.accessExpiresIn == "" then DefaultAccessExpiresIn else cfg.accessExpiresIn
  }

  /**
   * The token lifetime, in seconds, the signing library reads from an
   * `expiresIn` string. It reads nothing longer than 100 characters, so
   * signing throws; on the pattern `^(\d+)(s|m|h|d)$` it reads exactly the
   * lifetime `parseDuration` reads; elsewhere it reads what the configuration
   * says, where `parseDuration` falls back to 15 minutes.
   */
  function ExpiresInSeconds(cfg: Config, expiresIn: string): (seconds: Option<nat>)
    ensures |expiresIn| > MaxTimespanLength ==> seconds.None?
    ensures MatchesDuration(expiresIn) && |expiresIn| <= MaxTimespanLength ==>
              seconds.Some? && seconds.value * 1000 == ParseDuration(expiresIn)
  {
    if |expiresIn| > MaxTimespanLength then None
    else if MatchesDuration(expiresIn) then
      ParseDurationValue(expiresIn);
      Some(ParseDuration(expiresIn) / 1000)
    else cfg.otherExpiresIn(expiresIn)
  }

  function AccessLifetime(cfg: Config): Option<nat>
  {
    ExpiresInSeconds(cfg, AccessExpiresIn(cfg))
  }

  function RefreshLifetime(cfg: Config): Option<nat>
  {
    ExpiresInSeconds(cfg, RefreshExpiresIn(cfg))
  }

  /** Neither `signAccessToken` nor `signRefreshToken` throws. */
  predicate CanSign(cfg: Config)
  {
    AccessLifetime(cfg).Some? && RefreshLifetime(cfg).Some?
  }

  /** The default lifetimes are read as 15 minutes and 7 days by both readers. */
  lemma DefaultLifetimes(cfg: Config)
    requires cfg.accessExpiresIn == "" && cfg.refreshExpiresIn == ""
    ensures AccessLifetime(cfg) == Some(900) && RefreshLifetime(cfg) == Some(604800)
    ensures CanSign(cfg)
  {
    DefaultDurations();
    ParseDurationOfNumeral(15, 'm');
    ParseDurationOfNumeral(7, 'd');
    assert NatToDigits(15) + ['m'] == DefaultAccessExpiresIn;
    assert NatToDigits(7) + ['d'] == DefaultRefreshExpiresIn;
  }

  /** `getRefreshTokenExpiry(rememberMe)`: the stored expiry of a refresh token issued at `now`. */
  function RefreshTokenExpiry(cfg: Config, rememberMe: bool, now: nat): (expiresAt: nat)
    ensures rememberMe ==> expiresAt == now + RememberMeDurationMs
    ensures !rememberMe ==> expiresAt == now + ParseDuration(RefreshExpiresIn(cfg))
    ensures expiresAt >= now
  {
    if rememberMe then now + RememberMeDurationMs
    else
      var duration := ParseDuration(RefreshExpiresIn(cfg));
      now + duration
  }

  /** The cookie `setRefreshTokenCookie` writes. */
  function RefreshTokenCookie(cfg: Config, token: string, rememberMe: bool): Cookie
  {
    var duration := if rememberMe then RememberMeDurationMs else ParseDuration(RefreshExpiresIn(cfg));
    Cookie(RefreshCookieName, token, true, cfg.production, "lax", duration / 1000, "/")
  }

  /** The cookie's Max-Age is the stored lifetime of the same token, in whole seconds. */
  lemma CookieMaxAgeMatchesExpiry(cfg: Config, token: string, rememberMe: bool, now: nat)
    ensures RefreshTokenCookie(cfg, token, rememberMe).maxAge
            == (RefreshTokenExpiry(cfg, rememberMe, now) - now) / 1000
    ensures rememberMe ==> RefreshTokenCookie(cfg, token, rememberMe).maxAge == 2592000
  {
  }

  /** `setRefreshTokenCookie(event, token, rememberMe)`. */
  method SetRefreshTokenCookie(event: HttpEvent, cfg: Config, token: string, rememberMe: bool)
    modifies event`refreshCookieWrite
    ensures event.refreshCookieWrite == Written(RefreshTokenCookie(cfg, token, rememberMe))
  {
    var duration := if rememberMe then RememberMeDurationMs else ParseDuration(RefreshExpiresIn(cfg));
    event.refreshCookieWrite :=
      Written(Cookie(RefreshCookieName, token, true, cfg.production, "lax", duration / 1000, "/"));
  }

  /** `clearRefreshTokenCookie(event)`. */
  method ClearRefreshTokenCookie(event: HttpEvent, cfg: Config)
    modifies event`refreshCookieWrite
    ensures event.refreshCookieWrite == Deleted(RefreshCookieName, true, cfg.production, "lax", "/")
  {
    event.refreshCookieWrite := Deleted(RefreshCookieName, true, cfg.production, "lax", "/");
  }

  /** `extractAccessToken`: the `Authorization` header minus a case-sensitive `Bearer ` prefix. */
  function ExtractAccessToken(authorization: Option<string>): (token: Option<string>)
    ensures token.Some? <==> authorization.Some? && StartsWith(authorization.value, BearerPrefix)
    ensures token.Some? ==> BearerPrefix + token.value == authorization.value
  {
    if authorization.Some? && StartsWith(authorization.value, BearerPrefix)
    then Some(authorization.value[7..])
    else None
  }

  /** The header a client builds from a token gives that token back. */
  lemma ExtractBearerRoundTrip(token: string)
    ensures ExtractAccessToken(Some(BearerPrefix + token)) == Some(token)
  {
    assert (BearerPrefix + token)[7..] == token;
  }

  /** `getRefreshTokenFromCookie`: an empty cookie value counts as absent. */
  function RefreshTokenFromCookie(cookie: Option<string>): (token: Option<string>)
    ensures token.Some? <==> cookie.Some? && cookie.value != ""
    ensures token.Some? ==> token.value == cookie.value
  {
    if cookie.Some? && cookie.value != "" then cookie else None
  }

  /** The signed claims `{ userId, email }`. */
  datatype Payload = Payload(userId: string, email: string)

  /** A verified token's claims; `jti` is empty when the token carries no id. */
  datatype Claims = Claims(userId: string, email: string, iat: nat, exp: nat, jti: string)

  /**
   * `jwt.sign(payload, key, { expiresIn })`, once the library has read the
   * lifetime from `expiresIn`: `iat` is the current second and `exp` lies
   * `lifetime` seconds later. The last field is the token's tag
   * under `key`: verification recomputes it, so only the holder of the key
   * can produce a token that verifies under it.
   */
  function Sign(key: string, p: Payload, lifetime: nat, now: nat, jti: string): string
  {
    var iat := now / 1000;
    TokenCodec.EncodeFields([p.userId, p.email, NatToDigits(iat),
                             NatToDigits(iat + lifetime), jti, key])
  }

  /** `jwt.verify(token, key)`, with every failure mapped to `None` (it never throws). */
  function Verify(key: string, token: string, now: nat): (claims: Option<Claims>)
    ensures claims.Some? ==> now / 1000 < claims.value.exp
  {
    match TokenCodec.DecodeFields(token, 6)
    case None => None
    case Some(d) =>
      var fs := d.0;
      if d.1 != "" || fs[5] != key || !AllDigits(fs[2]) || !AllDigits(fs[3]) then None
      else if now / 1000 >= DigitsValue(fs[3]) then None
      else Some(Claims(fs[0], fs[1], DigitsValue(fs[2]), DigitsValue(fs[3]), fs[4]))
  }

  /** The `exp` claim of a token signed at `now` with a lifetime of `lifetime` seconds. */
  function TokenExp(lifetime: nat, now: nat): nat
  {
    now / 1000 + lifetime
  }

  /**
   * A token verifies under the key that signed it, giving back its payload,
   * exactly until its `exp` second.
   */
  lemma {:induction false} SignVerifyRoundTrip(key: string, p: Payload, lifetime: nat,
                                               issued: nat, jti: string, now: nat)
    ensures Verify(key, Sign(key, p, lifetime, issued, jti), now)
            == if now / 1000 < TokenExp(lifetime, issued)
               then Some(Claims(p.userId, p.email, issued / 1000, TokenExp(lifetime, issued), jti))
               else None
  {
    var iat := issued / 1000;
    var fs := [p.userId, p.email, NatToDigits(iat), NatToDigits(TokenExp(lifetime, issued)), jti, key];
    TokenCodec.DecodeEncode(fs, "");
    assert TokenCodec.EncodeFields(fs) + "" == Sign(key, p, lifetime, issued, jti);
  }

  /** A token never verifies under a key other than the one that signed it. */
  lemma {:induction false} VerifyWrongKey(key: string, other: string, p: Payload, lifetime: nat,
                                          issued: nat, jti: string, now: nat)
    requires other != key
    ensures Verify(other, Sign(key, p, lifetime, issued, jti), now) == None
  {
    var iat := issued / 1000;
    var fs := [p.userId, p.email, NatToDigits(iat), NatToDigits(TokenExp(lifetime, issued)), jti, key];
    TokenCodec.DecodeEncode(fs, "");
    assert TokenCodec.EncodeFields(fs) + "" == Sign(key, p, lifetime, issued, jti);
  }

  /** Tokens with different ids are different strings. */
  lemma {:induction false} SignDistinguishesIds(key: string, p: Payload, lifetime: nat,
                                                issued: nat, jti1: string, jti2: string)
    requires jti1 != jti2
    ensures Sign(key, p, lifetime, issued, jti1) != Sign(key, p, lifetime, issued, jti2)
  {
    var iat := issued / 1000;
    var exp := NatToDigits(TokenExp(lifetime, issued));
    var fs1 := [p.userId, p.email, NatToDigits(iat), exp, jti1, key];
    var fs2 := [p.userId, p.email, NatToDigits(iat), exp, jti2, key];
    TokenCodec.DecodeEncode(fs1, "");
    TokenCodec.DecodeEncode(fs2, "");
    assert TokenCodec.EncodeFields(fs1) + "" == Sign(key, p, lifetime, issued, jti1);
    assert TokenCodec.EncodeFields(fs2) + "" == Sign(key, p, lifetime, issued, jti2);
    assert fs1[4] != fs2[4];
  }

  /** `signAccessToken(payload)`: no token id is set. */
  function SignAccessToken(cfg: Config, p: Payload, now: nat): string
    requires AccessLifetime(cfg).Some?
  {
    Sign(cfg.accessSecret, p, AccessLifetime(cfg).value, now, "")
  }

  /**
   * `signRefreshToken(payload)` with token id `jti`. The source sets no id,
   * which is `jti == ""`; a handler that passes a fresh id gets a token no
   * earlier token equals.
   */
  function SignRefreshToken(cfg: Config, p: Payload, now: nat, jti: string): string
    requires RefreshLifetime(cfg).Some?
  {
    Sign(cfg.refreshSecret, p, RefreshLifetime(cfg).value, now, jti)
  }

  function VerifyAccessToken(cfg: Config, token: string, now: nat): Option<Claims>
  {
    Verify(cfg.accessSecret, token, now)
  }

  function VerifyRefreshToken(cfg: Config, token: string, now: nat): Option<Claims>
  {
    Verify(cfg.refreshSecret, token, now)
  }

  /** The id field of a well-formed token, whatever its key or expiry. */
  function TokenId(token: string): Option<string>
  {
    match TokenCodec.DecodeFields(token, 6)
    case None => None
    case Some(d) => if d.1 != "" then None else Some(d.0[4])
  }

  /** A signed token carries the id it was signed with. */
  lemma {:induction false} TokenIdOfSigned(key: string, p: Payload, lifetime: nat, issued: nat, jti: string)
    ensures TokenId(Sign(key, p, lifetime, issued, jti)) == Some(jti)
  {
    var iat := issued / 1000;
    var fs := [p.userId, p.email, NatToDigits(iat), NatToDigits(TokenExp(lifetime, issued)), jti, key];
    TokenCodec.DecodeEncode(fs, "");
    assert TokenCodec.EncodeFields(fs) + "" == Sign(key, p, lifetime, issued, jti);
  }

  /**
   * Without a token id, signing is a function of the payload and the current
   * second: two signings within the same second give the same string.
   */
  lemma SameSecondSameToken(cfg: Config, p: Payload, t1: nat, t2: nat)
    requires CanSign(cfg)
    requires t1 / 1000 == t2 / 1000
    ensures SignRefreshToken(cfg, p, t1, "") == SignRefreshToken(cfg, p, t2, "")
    ensures SignAccessToken(cfg, p, t1) == SignAccessToken(cfg, p, t2)
  {
  }
}
