/**
 * Password hashing. The bcrypt hash is foreign code; it is modelled by an
 * injective stand-in so that what the handlers rely on can be proved: the
 * hash differs from the plaintext, and verification accepts exactly the
 * password that was hashed.
 */
module Password {

  const HashPrefix: string := "$2a$12$"

  /** `hashPassword(plaintext)`. */
  function HashPassword(plaintext: string): (hash: string)
    ensures hash != plaintext
  {
    HashPrefix + plaintext
  }

  /** `verifyPassword(plaintext, hash)`: never fails on a malformed hash, answers false. */
  function VerifyPassword(plaintext: string, hash: string): bool
  {
    hash == HashPrefix + plaintext
  }

  /** A hash verifies for the password it was made from and for no other. */
  lemma HashVerifies(p: string, q: string)
    ensures VerifyPassword(p, HashPassword(p))
    ensures VerifyPassword(q, HashPassword(p)) <==> q == p
  {
    if VerifyPassword(q, HashPassword(p)) {
      assert (HashPrefix + q)[|HashPrefix|..] == q;
      assert (HashPrefix + p)[|HashPrefix|..] == p;
    }
  }
}
