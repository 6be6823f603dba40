/**
 * Signed, expiring claim tokens (jsonwebtoken's `sign` and `verify` with the
 * HS256 default). A token is `<userId>.<exp>.<signature>`: the payload holds
 * the `userId` claim and the expiry instant `exp` (seconds), and the
 * signature is an injective function of the pair (payload, secret), standing
 * in for an HMAC: a signature string is the signature of one payload under
 * one secret only (SignatureInjective).
 */
module Jwt {
  import opened Results
  import Text

  datatype Claims = Claims(userId: string, exp: nat)

  /** The errors `jwt.verify` throws, in the order it checks for them. */
  datatype JwtError =
    | JwtMissing        // "jwt must be provided"
    | Malformed         // "jwt malformed" or "invalid token": not three parts, or a payload that does not decode
    | SecretMissing     // "secret or public key must be provided"
    | InvalidSignature  // "invalid signature"; also "jwt signature is required" (an empty third part)
    | Expired           // "jwt expired"

  /** The signed part: the user id, '.', the expiry numeral. */
  function EncodePayload(claims: Claims): (payload: string)
    ensures Text.StartsWith(payload, claims.userId)
  {
    claims.userId + "." + Text.NatToDecimal(claims.exp)
  }

  /**
   * Symbolic HMAC of the payload under the secret: the two encodings, apart
   * by a 'y' that neither encoding holds.
   */
  function Signature(payload: string, secret: string): (sig: string)
    ensures Text.IsAlphanumeric(sig)
  {
    Text.CharCodes(payload) + "y" + Text.CharCodes(secret)
  }

  /** The complete token for some claims under a secret. */
  function Encode(claims: Claims, secret: string): (token: string)
    ensures Text.StartsWith(token, EncodePayload(claims))
  {
    var payload := EncodePayload(claims);
    payload + "." + Signature(payload, secret)
  }

  /**
   * `jwt.sign({ userId }, secret, { expiresIn: lifetime })` at instant `iat`.
   * jsonwebtoken refuses an empty secret, so the callers must not pass one.
   */
  function Sign(userId: string, secret: string, iat: nat, lifetime: nat): (token: string)
    requires secret != ""
    requires Text.IsAlphanumeric(userId)
    ensures forall i :: 0 <= i < |token| ==> token[i] != ' ' && token[i] != '/'
    ensures token == Encode(Claims(userId, iat + lifetime), secret)
  {
    var claims := Claims(userId, iat + lifetime);
    assert Text.IsAlphanumeric(Text.NatToDecimal(claims.exp));
    Encode(claims, secret)
  }

  /**
   * `jwt.verify(token, secret)` at instant `now`. A token verifies only when
   * it is exactly the encoding of its claims under this secret and its
   * expiry lies after `now`.
   */
  function Verify(token: Option<string>, secret: string, now: nat): (r: Result<Claims, JwtError>)
    ensures r.Ok? ==> secret != "" && token == Some(Encode(r.value, secret)) && now < r.value.exp
  {
    if token.None? || token.value == "" then Err(JwtMissing)
    else
      var parts := Text.Split(token.value, '.');
      if |parts| != 3 then Err(Malformed)
      else
        match Text.ParseDecimal(parts[1])
        case None => Err(Malformed)
        case Some(exp) =>
          if secret == "" then Err(SecretMissing)
          else if parts[2] != Signature(parts[0] + "." + parts[1], secret) then Err(InvalidSignature)
          else if now >= exp then Err(Expired)
          else
            Text.DecimalCanonical(parts[1], exp);
            assert token.value == parts[0] + "." + parts[1] + "." + parts[2] by {
              assert parts == [parts[0], parts[1], parts[2]];
              Text.JoinThree(parts[0], parts[1], parts[2], '.');
            }
            Ok(Claims(parts[0], exp))
  }

  /**
   * A signature determines both its payload and its secret: a signature made
   * under one secret is the signature of no payload under another secret.
   */
  lemma SignatureInjective(payload: string, key: string, other: string, secret: string)
    requires Signature(payload, key) == Signature(other, secret)
    ensures payload == other && key == secret
  {
    Text.SeparatedPrefix(Text.CharCodes(payload), Text.CharCodes(other),
                         Text.CharCodes(key), Text.CharCodes(secret), 'y');
    Text.CharCodesInjective(payload, other);
    Text.CharCodesInjective(key, secret);
  }

  /** None of the three parts of a signed token holds a '.'. */
  lemma NoDotInParts(userId: string, digits: string, sig: string)
    requires Text.IsAlphanumeric(userId) && Text.IsAlphanumeric(digits) && Text.IsAlphanumeric(sig)
    ensures forall i :: 0 <= i < |[userId, digits, sig]| ==> '.' !in [userId, digits, sig][i]
  {
    assert '.' !in userId && '.' !in digits && '.' !in sig;
  }

  /** The three parts of a signed token are the user id, the expiry numeral and the signature. */
  lemma SignedParts(userId: string, secret: string, iat: nat, lifetime: nat)
    requires secret != ""
    requires Text.IsAlphanumeric(userId)
    ensures var payload := EncodePayload(Claims(userId, iat + lifetime));
      Text.Split(Sign(userId, secret, iat, lifetime), '.')
        == [userId, Text.NatToDecimal(iat + lifetime), Signature(payload, secret)]
  {
    var digits := Text.NatToDecimal(iat + lifetime);
    var sig := Signature(EncodePayload(Claims(userId, iat + lifetime)), secret);
    NoDotInParts(userId, digits, sig);
    Text.JoinThree(userId, digits, sig, '.');
    assert Sign(userId, secret, iat, lifetime) == Text.Join([userId, digits, sig], '.');
    Text.SplitJoin([userId, digits, sig], '.');
  }

  /**
   * A signed token verifies under the same secret until it expires, and
   * under any other secret never.
   */
  lemma VerifySigned(userId: string, secret: string, key: string, iat: nat, lifetime: nat, now: nat)
    requires secret != ""
    requires Text.IsAlphanumeric(userId)
    ensures Verify(Some(Sign(userId, secret, iat, lifetime)), key, now) ==
      if key == "" then Err(SecretMissing)
      else if key != secret then Err(InvalidSignature)
      else if now >= iat + lifetime then Err(Expired)
      else Ok(Claims(userId, iat + lifetime))
  {
    var exp := iat + lifetime;
    var payload := EncodePayload(Claims(userId, exp));
    SignedParts(userId, secret, iat, lifetime);
    VerifyThreeParts(Sign(userId, secret, iat, lifetime), userId, exp, Signature(payload, secret), key, now);
    if key != "" && Signature(payload, key) == Signature(payload, secret) {
      SignatureInjective(payload, key, payload, secret);
    }
  }

  /**
   * What `verify` decides for a token made of a user id, an expiry numeral
   * and a signature: the key must be given, the signature must be the
   * payload's under that key, and the expiry must lie after `now`.
   */
  lemma VerifyThreeParts(token: string, userId: string, exp: nat, sig: string, key: string, now: nat)
    requires Text.Split(token, '.') == [userId, Text.NatToDecimal(exp), sig]
    ensures Verify(Some(token), key, now) ==
      if key == "" then Err(SecretMissing)
      else if sig != Signature(EncodePayload(Claims(userId, exp)), key) then Err(InvalidSignature)
      else if now >= exp then Err(Expired)
      else Ok(Claims(userId, exp))
  {
    Text.JoinThree(userId, Text.NatToDecimal(exp), sig, '.');
    assert token == userId + "." + Text.NatToDecimal(exp) + "." + sig;
    Text.DecimalRoundTrip(exp);
  }
}
