/**
 * The password-hashing library the models call (Flask-Bcrypt's `generate_password_hash`
 * and `check_password_hash`). Its internals are not modelled: the library is a value
 * holding the two operations, passed to every member that uses it, and what the models
 * rely on is stated as predicates that callers assume explicitly.
 */
module Crypt {

  /** The random salt bcrypt draws for every new hash; randomness becomes a parameter. */
  type Salt = nat

  datatype Bcrypt = Bcrypt(
    generate: (string, Salt) -> string,   // generate_password_hash: plain text to hash
    check: (string, string) -> bool)      // check_password_hash(hash, plain text)

  /**
   * A hash made from a password accepts that same password. The library refuses to hash
   * an empty password, so nothing is assumed about `generate("", s)`.
   */
  ghost predicate AcceptsOwnHash(crypt: Bcrypt)
  {
    forall p: string, s: Salt :: p != "" ==> crypt.check(crypt.generate(p, s), p)
  }

  /**
   * A hash made from a password rejects every other password. Real bcrypt only looks at
   * the first 72 bytes of a password, so this is an idealisation of the library.
   */
  ghost predicate RejectsOtherPasswords(crypt: Bcrypt)
  {
    forall p: string, q: string, s: Salt {:trigger crypt.check(crypt.generate(p, s), q)} ::
      p != "" && p != q ==> !crypt.check(crypt.generate(p, s), q)
  }
}
