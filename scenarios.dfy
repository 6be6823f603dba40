/**
 * Client runs of the handlers, each a request sequence as a user of the
 * service performs it: they show what callers can conclude from the
 * handlers' contracts alone.
 */
module Scenarios {
  import opened Results
  import opened UserModel
  import opened Http
  import opened UserController
  import Protect
  import Bcrypt
  import Jwt

  /** Register, then log in with the same email and password: 200 with a one-day token for the new id. */
  method RegisterThenLogin(newId: ObjectId, name: string, email: string, password: string, jwtSecret: string, now: nat)
    requires name != "" && email != "" && password != "" && jwtSecret != ""
  {
    var store := new UserStore();
    var form := RegistrationForm(Some(name), Some(email), Some(password), Some(password));
    assert form.Confirmed();
    var registered := UserRegistration(store, form, newId);
    assert registered == Sent(201, UserCreated(Success, UserRegistered, Profile(newId, name, email)));

    assert store.FindOne(email).Some?;
    var loggedIn := UserLogin(store, LoginForm(Some(email), Some(password)), jwtSecret, now);
    assert loggedIn == Sent(200, TokenIssued(Success, LoggedIn, Jwt.Sign(newId, jwtSecret, now, OneDay)));
  }

  /**
   * A stored user's login token, sent as "Bearer <token>" within its day,
   * passes the gate once and the logged-in user is that user without the
   * password.
   */
  method LoginTokenPassesGate(store: UserStore, id: ObjectId, jwtSecret: string, issuedAt: nat, elapsed: nat)
    requires store.Valid() && id in store.docs
    requires jwtSecret != "" && elapsed < OneDay
  {
    var token := Jwt.Sign(id, jwtSecret, issuedAt, OneDay);
    Protect.BearerTokenOfHeader(token);
    var req := new Protect.Request(Some("Bearer " + token));
    Jwt.VerifySigned(id, jwtSecret, jwtSecret, issuedAt, OneDay, issuedAt + elapsed);
    assert CastObjectId(id) == Some(id);
    var gate := Protect.Protect(req, store, jwtSecret, issuedAt + elapsed);
    assert gate == Passed && req.nextCalls == 1;

    var me := LoggedUser(req.user.value);
    assert me == Sent(200, CurrentUser(Success, store.docs[id].WithoutPassword()));
  }

  /** The same token is turned away with "token failed" once its day is over. */
  method LoginTokenExpires(store: UserStore, id: ObjectId, jwtSecret: string, issuedAt: nat, elapsed: nat)
    requires store.Valid() && id in store.docs
    requires jwtSecret != "" && elapsed >= OneDay
  {
    var token := Jwt.Sign(id, jwtSecret, issuedAt, OneDay);
    Protect.BearerTokenOfHeader(token);
    var req := new Protect.Request(Some("Bearer " + token));
    Jwt.VerifySigned(id, jwtSecret, jwtSecret, issuedAt, OneDay, issuedAt + elapsed);
    assert Jwt.Verify(Protect.BearerToken(req.authorization.value), jwtSecret, issuedAt + elapsed) == Err(Jwt.Expired);
    var gate := Protect.Protect(req, store, jwtSecret, issuedAt + elapsed);
    assert gate == Sent(401, MessageOnly(Protect.TokenFailed)) && req.nextCalls == 0 && req.user == None;
  }

  /** A second registration with the same email is refused and adds nobody. */
  method RegisterTwice(firstId: ObjectId, secondId: ObjectId, name: string, email: string, password: string)
    requires name != "" && email != "" && password != ""
  {
    var store := new UserStore();
    var form := RegistrationForm(Some(name), Some(email), Some(password), Some(password));
    assert form.Confirmed();
    var first := UserRegistration(store, form, firstId);
    var before := store.docs;
    var second := UserRegistration(store, form, secondId);
    assert second == Sent(400, StatusMessage(Failed, EmailAlreadyExists));
    assert store.docs == before && |store.docs| == 1;
  }

  /** A password change whose confirmation differs keeps the old password working. */
  method MismatchedChangeKeepsPassword(newId: ObjectId, name: string, email: string, password: string,
                                       typed: string, retyped: string, jwtSecret: string, now: nat)
    requires name != "" && email != "" && password != "" && jwtSecret != ""
    requires typed != "" && retyped != "" && typed != retyped
  {
    var store := new UserStore();
    var form := RegistrationForm(Some(name), Some(email), Some(password), Some(password));
    assert form.Confirmed();
    var registered := UserRegistration(store, form, newId);
    var change := PasswordForm(Some(typed), Some(retyped));
    assert change.Complete() && !change.Confirmed();
    var changed := ChangePassword(store, Profile(newId, name, email), change);
    assert changed == Sent(400, StatusMessage(Failed, PasswordsDoNotMatch));

    assert store.FindOne(email).Some?;
    var loggedIn := UserLogin(store, LoginForm(Some(email), Some(password)), jwtSecret, now);
    assert loggedIn.code == 200;
  }

  /** A registered user's reset request logs a link that carries the user's id and a one-hour reset token. */
  method RegisterThenRequestLink(newId: ObjectId, name: string, email: string, password: string, jwtSecret: string, now: nat)
    requires name != "" && email != "" && password != ""
  {
    var store := new UserStore();
    var form := RegistrationForm(Some(name), Some(email), Some(password), Some(password));
    assert form.Confirmed();
    var registered := UserRegistration(store, form, newId);
    assert store.FindOne(email).Some?;
    var requested, link := SendUserPasswordResetEmail(store, Some(email), jwtSecret, now);
    var token := Jwt.Sign(newId, ResetSecret(newId, jwtSecret), now, OneHour);
    assert requested == Sent(200, StatusMessage(Success, ResetLinkGenerated));
    ResetLinkRoundTrip(newId, token);
    assert ParseResetLink(link.value) == Some((newId, token));
  }

  /**
   * The reset token from the link resets the password; the same token then
   * works a second time within its hour, since nothing about the user's
   * reset secret changed.
   */
  method ResetTokenReusable(store: UserStore, id: ObjectId, first: string, second: string,
                            jwtSecret: string, issuedAt: nat)
    requires store.Valid() && id in store.docs
    requires first != "" && second != ""
    modifies store
  {
    var token := Jwt.Sign(id, ResetSecret(id, jwtSecret), issuedAt, OneHour);
    ResetTokenRoundTrip(id, jwtSecret, issuedAt, issuedAt + 60);
    var reset := PasswordForm(Some(first), Some(first));
    assert reset.Confirmed() && CastObjectId(id) == Some(id);
    assert ResetAuthorized(store.docs, id, token, jwtSecret, issuedAt + 60);
    var done := UserPasswordReset(store, reset, id, token, jwtSecret, issuedAt + 60);
    assert done == Sent(200, StatusMessage(Success, PasswordResetDone));
    assert store.docs[id].password == Bcrypt.Hash(first);

    ResetTokenRoundTrip(id, jwtSecret, issuedAt, issuedAt + 120);
    var again := PasswordForm(Some(second), Some(second));
    assert again.Confirmed();
    assert ResetAuthorized(store.docs, id, token, jwtSecret, issuedAt + 120);
    var redone := UserPasswordReset(store, again, id, token, jwtSecret, issuedAt + 120);
    assert redone == Sent(200, StatusMessage(Success, PasswordResetDone));
    assert store.docs[id].password == Bcrypt.Hash(second);
  }

  /** Unknown emails get 404 and no link; a reset against another user's id goes unanswered. */
  method ResetForOthers(annId: ObjectId, bobId: ObjectId, annName: string, bobName: string,
                        annEmail: string, bobEmail: string, unknownEmail: string,
                        password: string, jwtSecret: string, now: nat)
    requires annId != bobId && annEmail != bobEmail
    requires unknownEmail != "" && unknownEmail != annEmail && unknownEmail != bobEmail
    requires annName != "" && bobName != "" && annEmail != "" && bobEmail != "" && password != ""
  {
    var store := new UserStore();
    var annForm := RegistrationForm(Some(annName), Some(annEmail), Some(password), Some(password));
    var bobForm := RegistrationForm(Some(bobName), Some(bobEmail), Some(password), Some(password));
    assert annForm.Confirmed() && bobForm.Confirmed();
    var ann := UserRegistration(store, annForm, annId);
    assert !EmailTaken(store.docs, bobEmail);
    var bob := UserRegistration(store, bobForm, bobId);
    assert bobId in store.docs;

    assert !EmailTaken(store.docs, unknownEmail);
    var unknown, noLink := SendUserPasswordResetEmail(store, Some(unknownEmail), jwtSecret, now);
    assert unknown == Sent(404, MessageOnly(EmailDoesNotExist)) && noLink == None;

    var annToken := Jwt.Sign(annId, ResetSecret(annId, jwtSecret), now, OneHour);
    ResetTokenBoundToUser(annId, bobId, jwtSecret, now, now);
    assert CastObjectId(bobId) == Some(bobId);
    assert !ResetAuthorized(store.docs, bobId, annToken, jwtSecret, now);
    var before := store.docs;
    var crossed := UserPasswordReset(store, PasswordForm(Some(password), Some(password)), bobId, annToken, jwtSecret, now);
    assert crossed == NoResponse && store.docs == before;
  }
}
