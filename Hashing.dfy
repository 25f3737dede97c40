/**
 * The salted one-way hash behind `PasswordHasher` (BCrypt in the service),
 * used for both passwords and verification codes. The algorithm is not
 * modelled: a hasher is a pair of functions, the salt `hashpw` draws is an
 * input, and the only thing assumed of a hasher is that a value checks
 * against any of its own hashes.
 */
module Hashing {

  datatype Hasher = Hasher(hash: (string, nat) -> string, verify: (string, string) -> bool)

  /** `checkpw(p, hashpw(p, salt))` holds for every value and salt. */
  ghost predicate Sound(h: Hasher)
  {
    forall value, salt :: h.verify(value, h.hash(value, salt))
  }
}
