/**
 * The `protect` middleware: the bearer-token gate in front of the private
 * routes. It reads the `Authorization` header, verifies the token with the
 * global secret, loads the user it names without the password, attaches it
 * to the request and hands on to the next handler; every failure answers 401.
 */
module Protect {
  import opened Results
  import opened UserModel
  import opened Http
  import Jwt
  import Text

  const NoToken := "No token, authorization failed"
  const TokenFailed := "Not authorized, token failed"
  const UserNotFound := "User not found"

  /** The part of an Express request the middleware reads and writes. */
  class Request {
    /** `req.headers.authorization`. */
    const authorization: Option<string>
    /** `req.user`, set by the middleware. */
    var user: Option<Profile>
    /** How often `next()` has been called for this request. */
    var nextCalls: nat

    constructor (authorization: Option<string>)
      ensures this.authorization == authorization
      ensures user == None && nextCalls == 0
    {
      this.authorization := authorization;
      user := None;
      nextCalls := 0;
    }
  }

  /**
   * `req.headers.authorization && req.headers.authorization.startsWith("Bearer")`.
   * The truthiness test adds nothing: a header that starts with "Bearer" is
   * never empty.
   */
  function HasBearerScheme(header: Option<string>): (bearer: bool)
    ensures bearer <==> header.Some? && Text.StartsWith(header.value, "Bearer")
  {
    Truthy(header) && Text.StartsWith(header.value, "Bearer")
  }

  /**
   * `header.split(" ")[1]`: the text between the first and the second space;
   * `undefined` (None) when the header has no space at all.
   */
  function BearerToken(header: string): (token: Option<string>)
    ensures token.Some? <==> ' ' in header
    ensures token.Some? ==> ' ' !in token.value
    ensures token.Some? ==>
      var i := Text.IndexOf(header, ' ').value;
      && Text.StartsWith(header[i + 1..], token.value)
      && (i + 1 + |token.value| == |header| || header[i + 1 + |token.value|] == ' ')
  {
    var parts := Text.Split(header, ' ');
    if |parts| >= 2 then
      var i := Text.IndexOf(header, ' ').value;
      var rest := Text.Split(header[i + 1..], ' ');
      assert parts == [header[..i]] + rest;
      assert i + 1 + |rest[0]| == |header| || header[i + 1 + |rest[0]|] == ' ' by {
        if |rest| > 1 {
          Text.JoinCons(rest[0], rest[1..], ' ');
          assert rest == [rest[0]] + rest[1..];
        }
      }
      Some(parts[1])
    else None
  }

  /** The header a client builds from a token it was given passes the scheme test and yields that token back. */
  lemma BearerTokenOfHeader(token: string)
    requires ' ' !in token
    ensures HasBearerScheme(Some("Bearer " + token))
    ensures BearerToken("Bearer " + token) == Some(token)
  {
    assert ("Bearer " + token)[..6] == "Bearer";
    assert Text.Join(["Bearer", token], ' ') == "Bearer " + token by {
      Text.JoinCons("Bearer", [token], ' ');
    }
    Text.SplitJoin(["Bearer", token], ' ');
  }

  /**
   * A header such as "Bearerxyz" passes the scheme test but holds no space,
   * so there is no token and verification fails.
   */
  lemma GluedBearerHasNoToken(header: string, jwtSecret: string, now: nat)
    requires HasBearerScheme(Some(header)) && ' ' !in header
    ensures BearerToken(header) == None
    ensures Jwt.Verify(BearerToken(header), jwtSecret, now) == Err(Jwt.JwtMissing)
  {
  }

  /**
   * The gate. Without a bearer header it answers 401 "No token". A token
   * that is missing, malformed, signed otherwise or expired, or whose user id
   * is not an ObjectId, answers 401 "token failed". A valid token for a user
   * that does not exist sets `req.user` to nothing and answers 401 "User not
   * found". Otherwise `req.user` is the stored user without the password and
   * `next` is called exactly once. Only the success calls `next`.
   */
  method Protect(req: Request, store: UserStore, jwtSecret: string, now: nat) returns (out: Outcome)
    requires store.Valid()
    modifies req
    ensures out == Passed <==> req.nextCalls == old(req.nextCalls) + 1
    ensures out != Passed ==> req.nextCalls == old(req.nextCalls)
    ensures !HasBearerScheme(req.authorization) ==>
      out == Sent(401, MessageOnly(NoToken)) && unchanged(req)
    ensures HasBearerScheme(req.authorization) ==>
      var decoded := Jwt.Verify(BearerToken(req.authorization.value), jwtSecret, now);
      && (decoded.Err? ==> out == Sent(401, MessageOnly(TokenFailed)) && unchanged(req))
      && (decoded.Ok? && CastObjectId(decoded.value.userId).None? ==>
            out == Sent(401, MessageOnly(TokenFailed)) && unchanged(req))
      && (decoded.Ok? && CastObjectId(decoded.value.userId).Some? ==>
            var id := CastObjectId(decoded.value.userId).value;
            && (id !in store.docs ==> out == Sent(401, MessageOnly(UserNotFound)) && req.user == None)
            && (id in store.docs ==> out == Passed && req.user == Some(store.docs[id].WithoutPassword())))
  {
    if !HasBearerScheme(req.authorization) {
      return Sent(401, MessageOnly(NoToken));
    }
    var token := BearerToken(req.authorization.value);
    var decoded := Jwt.Verify(token, jwtSecret, now);
    if decoded.Err? {
      return Sent(401, MessageOnly(TokenFailed));
    }
    var found := store.FindById(decoded.value.userId);
    if found.Err? {
      return Sent(401, MessageOnly(TokenFailed));
    }
    req.user := if found.value.Some? then Some(found.value.value.WithoutPassword()) else None;
    if req.user.None? {
      return Sent(401, MessageOnly(UserNotFound));
    }
    req.nextCalls := req.nextCalls + 1;
    out := Passed;
  }
}
