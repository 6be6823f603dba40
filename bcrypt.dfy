/**
 * The password hasher (bcrypt with cost factor 10). The salt is random in
 * bcrypt; here the hash is a fixed injective function of the password, so
 * `Compare(pw, h)` holds exactly when `h == Hash(pw)`.
 */
module Bcrypt {
  import Text

  /** The algorithm and cost prefix of every bcrypt hash: version 2b, 10 rounds. */
  const Prefix: string := "$2b$10$"

  /** Shape of a stored password hash. */
  predicate IsHash(h: string)
  {
    Text.StartsWith(h, Prefix)
  }

  /** `bcrypt.hash(password, await bcrypt.genSalt(10))`. */
  function Hash(password: string): (h: string)
    ensures IsHash(h)
    ensures |h| > |password|
  {
    Prefix + Text.CharCodes(password)
  }

  /** `bcrypt.compare(password, h)`. */
  function Compare(password: string, h: string): (matches: bool)
    ensures matches ==> IsHash(h) && |h| > |password|
  {
    h == Hash(password)
  }

  /** A hash is never the plaintext it was made from. */
  lemma HashIsNotPlaintext(password: string)
    ensures Hash(password) != password
  {
  }

  /** Comparing against the hash of a password succeeds for that password and only for it. */
  lemma CompareHash(password: string, original: string)
    ensures Compare(password, Hash(original)) <==> password == original
  {
    if Compare(password, Hash(original)) {
      assert Hash(password)[|Prefix|..] == Text.CharCodes(password);
      assert Hash(original)[|Prefix|..] == Text.CharCodes(original);
      Text.CharCodesInjective(password, original);
    }
  }
}
