/**
 * The writes the auth handlers make to the refresh-token table: revoking
 * every token of a user, revoking one token, and issuing a token.
 */
module RefreshStore {
  import opened Wrappers
  import opened Db

  type Store = map<string, RefreshRecord>

  predicate Revoked(s: Store, token: string) { token in s && s[token].revokedAt.Some? }

  /**
   * `updateMany({ where: { userId }, data: { revokedAt: now } })`: every record
   * of the user, revoked already or not, gets `revokedAt = now`.
   */
  function RevokeAllForUser(s: Store, userId: string, now: nat): (r: Store)
    ensures r.Keys == s.Keys
    ensures forall k :: k in s && s[k].userId == userId ==> r[k] == s[k].(revokedAt := Some(now))
    ensures forall k :: k in s && s[k].userId != userId ==> r[k] == s[k]
  {
    map k | k in s :: if s[k].userId == userId then s[k].(revokedAt := Some(now)) else s[k]
  }

  /**
   * `updateMany({ where: { token }, data: { revokedAt: now } })`: the token is
   * unique, so at most one record changes; none when no record matches.
   */
  function RevokeToken(s: Store, token: string, now: nat): (r: Store)
    ensures r.Keys == s.Keys
    ensures token in s ==> r[token] == s[token].(revokedAt := Some(now))
    ensures forall k :: k in s && k != token ==> r[k] == s[k]
  {
    if token in s then s[token := s[token].(revokedAt := Some(now))] else s
  }

  /** `create({ data: { token, userId, expiresAt } })`; `None` when the token is already stored. */
  function Issue(s: Store, token: string, userId: string, expiresAt: nat): (r: Option<Store>)
    ensures r.None? <==> token in s
    ensures r.Some? ==> r.value.Keys == s.Keys + {token}
                        && r.value[token] == RefreshRecord(userId, expiresAt, None)
                        && forall k :: k in s ==> r.value[k] == s[k]
  {
    if token in s then None else Some(s[token := RefreshRecord(userId, expiresAt, None)])
  }

  /** After mass revocation every record of the user is revoked; no other record changes. */
  lemma RevokeAllRevokesUser(s: Store, userId: string, now: nat)
    ensures forall k :: k in s && s[k].userId == userId ==> Revoked(RevokeAllForUser(s, userId, now), k)
    ensures forall k :: k in s && s[k].userId != userId ==>
              (Revoked(RevokeAllForUser(s, userId, now), k) <==> Revoked(s, k))
  {
  }

  /** Revocation is idempotent in status: revoking again leaves the token revoked, with the later time. */
  lemma RevokeTokenTwice(s: Store, token: string, t1: nat, t2: nat)
    ensures RevokeToken(RevokeToken(s, token, t1), token, t2) == RevokeToken(s, token, t2)
    ensures token in s ==> Revoked(RevokeToken(RevokeToken(s, token, t1), token, t2), token)
  {
  }

  /** Mass revocation applied twice is the same as once at the later time. */
  lemma RevokeAllTwice(s: Store, userId: string, t1: nat, t2: nat)
    ensures RevokeAllForUser(RevokeAllForUser(s, userId, t1), userId, t2) == RevokeAllForUser(s, userId, t2)
  {
  }
}
