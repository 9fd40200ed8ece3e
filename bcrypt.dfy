/**
 * The password hasher as the controllers use it: `hash(password, salt)` and
 * `compare(password, stored)`. Salt generation is randomness and arrives as a
 * parameter; the digest format and the cost factor are not modelled.
 */
module Bcrypt {

  /** A salt as produced by `genSalt`. */
  type Salt = string

  datatype Hasher = Hasher(
    hash: (string, Salt) -> string,
    compare: (string, string) -> bool)
  {
    /** Comparing a password with any salted hash of that same password succeeds. */
    ghost predicate Sound() {
      forall password, salt :: compare(password, hash(password, salt))
    }
  }
}
