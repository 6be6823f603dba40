# Authentication core of the Express user service, in Dafny

This project models the authentication logic of a small Express/MongoDB user
service:

- **The six handlers of `UserController`:** registration, login, password
  change, the logged-in user, the reset-link request and the password reset.
- **The `protect` middleware:** the bearer-token gate in front of the
  private routes.

Each handler is a sequence of checks with early returns. Each check
answers with a fixed status code and message, and some handlers write the
user collection. The model states, branch by branch:

- which answer the handler gives;
- whether the store changed, and if so, exactly how.

Modules:

- `Results`: `Option` and `Result`.
- `Text`: the string operations the code relies on:
  - `indexOf`;
  - `split`/`join` on one character;
  - `startsWith`;
  - decimal numerals;
  - an injective, URL-safe character-code encoding.
- `Bcrypt`: `hash` with cost factor 10, and `compare`. The hash is a fixed
  injective function of the password, so `Compare(pw, h)` holds exactly
  when `h == Hash(pw)`.
- `Jwt`: `sign` and `verify`.
  - A token is `<userId>.<exp>.<signature>`.
  - The signature is an injective function of the pair (payload, secret),
    standing in for the HMAC: one signature string belongs to one payload
    under one secret.
  - `Verify` reports jsonwebtoken's errors in the order jsonwebtoken checks
    them: missing token, malformed token, missing secret, bad signature,
    expiry. Some of jsonwebtoken's errors are folded into one:
    "invalid token" into `Malformed`, and "jwt signature is required" into
    `InvalidSignature`.
  - Time is a natural-number parameter `now`, in seconds: one day is 86400
    and one hour is 3600.
- `UserModel`: the mongoose user collection as a class.
  - `UserStore` holds `docs: map<ObjectId, User>` and an email index.
  - Its invariant `Valid()` says that ids are consistent, that every stored
    password is a bcrypt hash, and that emails are unique.
  - It offers `findOne`, `findById`, `create` and `findByIdAndUpdate`.
  - `findById` casts its argument to an ObjectId first (24 hex digits).
    Casting fails with a `CastError`.
- `Http`: response bodies and the outcome of a handler:
  - `Sent(code, body)`: a response was sent;
  - `NoResponse`: the handler returned without answering, so the client waits;
  - `Passed`: a middleware handed the request on with `next()`;
  - `Crashed(fault)`: the handler threw outside its `try`.
- `UserController`: the six handlers. Each is a method over a `UserStore`.
  The request body is a form datatype whose fields are `Option<string>`;
  JavaScript truthiness is `Truthy`.
- `Protect`: a `Request` class with the `authorization` header, the
  attached `user` and a count of `next()` calls, plus the method `Protect`.
- `Scenarios`: client runs of the handlers, checked from their contracts
  alone:
  - registering, logging in and reaching the private route with the token;
  - the token's expiry;
  - a duplicate registration;
  - a mismatched password change;
  - reusing one reset token twice within its hour;
  - a reset attempted with another user's token.

Randomness, the clock, the database's id generator and `process.env` are
parameters:

- the new user's ObjectId is a parameter of `UserRegistration`;
- `now` is a parameter of every operation that signs or verifies;
- the `JWT_SECRET` is a parameter of every operation that uses it.

The reset link that the source writes to the console is the `consoleLink`
out-parameter of `SendUserPasswordResetEmail`.

## Model

| member | source | states |
|---|---|---|
| Text.StartsWith | myapp/User/middleware/protect.js:9 | `s.startsWith(prefix)` holds exactly when the prefix is no longer than `s` and agrees with `s` at each of its positions |
| Text.IndexOf | myapp/User/middleware/protect.js:12 | the first position of the character: none exactly when it does not occur; otherwise it holds the character and no earlier position does |
| Text.Split | myapp/User/middleware/protect.js:12 | `split` on one character gives at least one piece; no piece holds the separator; joining the pieces gives back the input |
| Text.SplitJoin | myapp/User/middleware/protect.js:12 | splitting a join of separator-free pieces gives back exactly those pieces |
| Text.DecimalRoundTrip | myapp/User/controller/user.controller.js:97-99 | the expiry numeral written into a token reads back as the same number |
| Text.DecimalCanonical | myapp/User/middleware/protect.js:15 | a numeral the parser accepts is the one printing produces, so an expiry has a single spelling |
| Text.CharCodesInjective | myapp/User/controller/user.controller.js:88 | distinct strings have distinct encodings; the hash and signature stand-ins rest on this |
| Bcrypt.Compare | myapp/User/controller/user.controller.js:88 | `bcrypt.compare(pw, h)` is exactly `h == Hash(pw)`; a match is always against a well-formed hash longer than the password |
| Bcrypt.Hash | myapp/User/controller/user.controller.js:38-39 | the stand-in hash carries bcrypt's `$2b$10$` prefix; in the model it is longer than the password (an assumption of the model, see Left out) |
| Bcrypt.HashIsNotPlaintext | myapp/User/controller/user.controller.js:38-45 | the stored hash is never the plaintext password; in the model this follows from the hash being longer than the password |
| Bcrypt.CompareHash | myapp/User/controller/user.controller.js:88 | in the model, comparing with the hash of a password succeeds for that password and for no other (the injectivity is an assumption of the model, see Left out) |
| Jwt.Sign | myapp/User/controller/user.controller.js:97-99 | the token encodes the user id and an expiry of issue time plus lifetime, under the given secret, and holds no space or slash |
| Jwt.Verify | myapp/User/middleware/protect.js:15 | verification succeeds only when the secret is non-empty, the token is exactly the encoding of the returned claims under that secret, and it has not expired |
| Jwt.SignatureInjective | myapp/User/middleware/protect.js:15 | a signature determines its payload and its secret: equal signatures have equal payloads and equal secrets, so a signature made under one secret is the signature of no payload under another |
| Jwt.SignedParts | myapp/User/middleware/protect.js:15 | a signed token splits on '.' into the user id, the expiry numeral and the signature |
| Jwt.VerifyThreeParts | myapp/User/middleware/protect.js:15 | for a token of three parts (id, expiry numeral, signature), verification refuses an empty key, then a signature that is not the payload's under the key, then an expiry not after `now`; otherwise it yields the claims |
| Jwt.VerifySigned | myapp/User/middleware/protect.js:15 | a signed token is refused for an empty key, refused with a bad signature under any other secret, refused as expired from its expiry on, and otherwise yields its own claims |
| UserModel.CastObjectId | myapp/User/middleware/protect.js:18 | a string casts exactly when it is 24 hex digits in either case; the id is its lower-case form; a canonical id casts to itself |
| UserModel.User.WithoutPassword | myapp/User/middleware/protect.js:18 | `.select("-password")` keeps the id, name and email of the document and drops the password |
| UserModel.UserStore.FindOne | myapp/User/controller/user.controller.js:29 | `findOne({ email })` gives the stored user with that email, and nothing exactly when no user has it |
| UserModel.UserStore.FindById | myapp/User/controller/user.controller.js:213 | `findById` fails with a cast error exactly when the id is no ObjectId; otherwise it gives the user stored under the cast id or nothing |
| UserModel.UserStore.Create | myapp/User/controller/user.controller.js:42-46 | `create` adds exactly the given user under a fresh id and keeps the invariant; a taken id is a duplicate-key error that changes nothing |
| UserModel.UserStore.FindByIdAndUpdate | myapp/User/controller/user.controller.js:139-141 | only the named user's password changes, to the given hash; an absent id changes nothing; the email index stays |
| UserController.ResetSecret | myapp/User/controller/user.controller.js:186 | the reset secret is the user's id followed by the global secret: its first 24 characters are the id and the rest is exactly the global secret |
| UserController.ResetLink | myapp/User/controller/user.controller.js:189 | the logged link starts with the fixed reset-page prefix and a '/' |
| UserController.ParseResetLink | myapp/User/controller/user.controller.js:189 | reading a link back gives two '/'-free segments only when the link is exactly the prefix, the first segment, '/', and the second segment |
| UserController.UserRegistration | myapp/User/controller/user.controller.js:9-64 | in this order, with the store unchanged: a missing field gives 400 "All fields are required"; a mismatch gives 400 "do not match"; a taken email gives 400 "User email already exists"; an id collision gives 500. Otherwise exactly one user is added, with the hash of the password and never the plaintext, and 201 carries only id, name and email |
| UserController.UserLogin | myapp/User/controller/user.controller.js:69-113 | never writes the store. In order: a missing field gives 400; an unknown email gives 400 "User not registered"; a wrong password gives 400 "Invalid email or password"; an empty secret gives 500. Otherwise 200 carries a token for the user's id, signed with the global secret for one day |
| UserController.ChangePassword | myapp/User/controller/user.controller.js:118-154 | missing fields or a mismatch give 400 with the store unchanged; otherwise only the authenticated user's password becomes the hash of the new one, and 200 follows |
| UserController.LoggedUser | myapp/User/controller/user.controller.js:159-169 | 200 with exactly the user the gate attached; the store is not an argument |
| UserController.SendUserPasswordResetEmail | myapp/User/controller/user.controller.js:174-204 | never writes the store. A missing email gives 400 and an unknown one 404, with no link. A known email gives 200 and a link with the user's id and a one-hour token signed with that user's reset secret |
| UserController.UserPasswordReset | myapp/User/controller/user.controller.js:210-238 | a non-ObjectId id or an absent user makes the handler throw before its `try`; a token that fails verification against the user's reset secret gets no response. In each of these cases the store is unchanged. After a verified token: equal fields update only that user's password and answer "success"; different fields answer "does not Match"; a missing field answers "All Fields are Required"; the last two leave the store unchanged |
| UserController.ResetTokenRoundTrip | myapp/User/controller/user.controller.js:214-216 | a reset token for a user verifies against that user's own reset secret, with the user's id as claim, until its hour is over, and is expired afterwards |
| UserController.ResetTokenBoundToUser | myapp/User/controller/user.controller.js:214-216 | a reset token issued for one user fails with a bad signature against any other user's reset secret |
| UserController.SessionAndResetTokensDisjoint | myapp/User/controller/user.controller.js:186-187 | a login token never verifies as a reset token, and a reset token never verifies as a login token |
| UserController.ResetSignatureIsNoSessionSignature | myapp/User/controller/user.controller.js:186-187 | no signature under the global secret equals a signature under a reset secret, for any two payloads |
| UserController.ResetSignatureSignsNoSession | myapp/User/middleware/protect.js:15 | a three-part token whose signature part was made under a reset secret is refused under the global secret, whatever id and expiry its first two parts carry |
| UserController.ResetLinkRoundTrip | myapp/User/controller/user.controller.js:189 | the logged link's path, after the fixed prefix, is exactly the two segments id and token |
| Http.Truthy | myapp/User/controller/user.controller.js:14 | a body or header field passes a `!field` test exactly when it is present and not the empty string (the same test at lines 73, 122, 177 and 217) |
| Protect.HasBearerScheme | myapp/User/middleware/protect.js:7-9 | the header test holds exactly when the header is present and starts with "Bearer"; its truthiness half adds nothing |
| Protect.BearerToken | myapp/User/middleware/protect.js:12 | `split(" ")[1]` gives a token exactly when the header holds a space. The token is the text after the first space, up to the next space or the end of the header, and holds no space |
| Protect.BearerTokenOfHeader | myapp/User/middleware/protect.js:12 | the token is recovered from the header "Bearer " followed by that token |
| Protect.GluedBearerHasNoToken | myapp/User/middleware/protect.js:9-15 | a header such as "Bearerxyz" passes the scheme test but yields no token, so verification fails with "jwt must be provided" |
| Protect.Protect | myapp/User/middleware/protect.js:4-32 | a missing header or one without "Bearer" gives 401 "No token" with the request untouched. A token that fails verification, or whose user id is no ObjectId, gives 401 "token failed" with the request untouched. An unknown user gives 401 "User not found" and sets `req.user` to nothing. Otherwise `req.user` is the stored user without the password. The outcome is `Passed` and `next` is called exactly once, only on success; the store is outside the method's frame |

## Left out

- Bcrypt.Hash / Bcrypt.CompareHash: real bcrypt hashes are always 60 characters long, and bcrypt reads only the first 72 bytes of a password, so two passwords that share those bytes compare equal. The model's hash is longer than its password and is injective on the whole password. Both the length fact (which `Bcrypt.HashIsNotPlaintext` rests on) and the injectivity (which `Bcrypt.CompareHash` rests on) are assumptions of the model, not properties of bcrypt.
- Salts and cost: bcrypt's random salt and its cost factor are not modelled. The hash is a fixed injective function of the password, so comparing succeeds exactly for the hashed password.
- Cryptography: HMAC-SHA256 and base64url encoding are not modelled. The signature is a symbolic function of the payload and the secret, injective on the pair. There is no JOSE header and no `iat` claim; the payload holds the user id and the expiry only.
- Database and framework: the MongoDB connection, mongoose's schema and hooks, and the Express routing, logger and error handlers are not modelled. `myapp/User/models/user.models.js` is not part of this model; the store's invariant states the email uniqueness the handlers rely on.
- Logging: `console.log` and `console.error` are not modelled. The reset link is returned as `consoleLink` instead of being printed.
- Concurrency: handlers are atomic. The check-then-create race on email uniqueness (lines 29-42 of the controller) is out of scope. This is why `UserModel.UserStore.Create` requires an email that is not yet taken.
- Environment: `process.env.JWT_SECRET` is a parameter, as are the clock and the id that MongoDB would generate.
- Unreachable catch paths: the 500 paths of `changePassword`, `Loggeduser` and `sendUserPasswordResetEmail` cannot be reached in the model, because none of the modelled calls throws there. A database failure is not modelled.
- Body values: the request body holds strings or nothing. Non-string JSON values, and their truthiness, are not modelled.
- ObjectId casting: casting accepts 24 hex digits only. Mongoose's acceptance of other 12-character strings is left out.
- Jwt.Sign: requires an alphanumeric user id (every caller passes an ObjectId) and a non-empty secret. `UserLogin` answers 500 before signing with an empty secret, mirroring the exception `jwt.sign` throws.
- Jwt.Verify: jsonwebtoken's "jwt signature is required" (an empty third part under a non-empty secret, checked before the secret) is reported as `InvalidSignature`, and "invalid token" as `Malformed`; no caller tells these errors apart, since `protect` answers 401 to every one and the reset handler swallows every one. Its own contract states only the success direction. The complete case split for signed tokens is `Jwt.VerifySigned`.
- Reset link target: the logged link points at `/users/reset/<id>/<token>`, and no route matches that path: the reset handler is mounted at `POST /users/password-reset/:id/:token` (routes/users.js:11). How a client gets from the link to that route is not modelled. `UserController.ParseResetLink` reads the two segments back, which shows that the link carries the id and the token.
- Jwt.Verify: the refusal of every token under an empty secret is the behaviour of jsonwebtoken 9. Versions up to 8.5.1 accepted an unsigned `alg: none` token under a falsy secret (CVE-2022-23540), which would let such a token through `protect`; no package manifest is part of this model, so the version is an assumption.
- Reset token reuse: a reset token remains valid after a successful reset until its hour is over, because the reset secret does not depend on the password. The model reproduces this (`Scenarios.ResetTokenReusable`); it does not prevent it.
