/**
 * The authentication handlers of `UserController`: registration, login,
 * password change, the logged-in user, the reset-link request and the
 * reset itself. Each handler is atomic here; it reads and writes the user
 * collection, and its result is what it did with the response object.
 */
module UserController {
  import opened Results
  import opened UserModel
  import opened Http
  import Bcrypt
  import Jwt
  import Text

  /** `expiresIn: "1d"` and `expiresIn: "1h"`, in seconds. */
  const OneDay: nat := 86400
  const OneHour: nat := 3600

  const AllFieldsRequired := "All fields are required"
  const PasswordsDoNotMatch := "Password and Confirm Password do not match"
  const EmailAlreadyExists := "User email already exists"
  const UserRegistered := "User registered successfully"
  const InternalServerError := "Internal server error"
  const LoginFieldsRequired := "Email and password are required"
  const NotRegistered := "User not registered"
  const InvalidCredentials := "Invalid email or password"
  const LoggedIn := "User logged in successfully"
  const UnableToLogin := "Unable to login"
  const PasswordChanged := "Password changed successfully"
  const EmailFieldRequired := "Email field is required"
  const EmailDoesNotExist := "Email does not exist"
  const ResetLinkGenerated := "Password reset link generated. Check your console."
  const ResetPasswordsDoNotMatch := "New Password and Confirm Password does not Match"
  const PasswordResetDone := "Password Reset Successfully...."
  const ResetFieldsRequired := "All Fields are Required"

  /** Where the reset link points, up to the id and the token. */
  const ResetLinkBase := "http://127.0.0.1:3000/users/reset"

  /** The body of a registration request. */
  datatype RegistrationForm = RegistrationForm(
    name: Option<string>, email: Option<string>, password: Option<string>, confirmPassword: Option<string>)
  {
    predicate Complete()
    {
      Truthy(name) && Truthy(email) && Truthy(password) && Truthy(confirmPassword)
    }

    /** Every field present and the confirmation equal to the password. */
    predicate Confirmed()
    {
      Complete() && password == confirmPassword
    }
  }

  /** The body of a login request. */
  datatype LoginForm = LoginForm(email: Option<string>, password: Option<string>)

  /** The body of a password change or a password reset. */
  datatype PasswordForm = PasswordForm(password: Option<string>, confirmPassword: Option<string>)
  {
    predicate Complete()
    {
      Truthy(password) && Truthy(confirmPassword)
    }

    /** Both fields present and equal. */
    predicate Confirmed()
    {
      Complete() && password == confirmPassword
    }
  }

  /** The per-user secret a reset token is signed with: the user's id, then the global secret. */
  function ResetSecret(id: ObjectId, jwtSecret: string): (secret: string)
    ensures |secret| == |id| + |jwtSecret| && secret[..|id|] == id
    ensures secret[|id|..] == jwtSecret
  {
    id + jwtSecret
  }

  /** The reset link that is written to the console. */
  function ResetLink(id: ObjectId, token: string): (link: string)
    ensures Text.StartsWith(link, ResetLinkBase + "/")
  {
    ResetLinkBase + "/" + id + "/" + token
  }

  /**
   * Registration. The checks run in this order and the first that fails
   * answers 400 with the store unchanged: a missing field, a confirmation
   * that differs, an email that is already registered. Otherwise exactly one
   * user is added, with the hash of the password, and 201 carries its id,
   * name and email. An id that collides answers 500 and adds nothing.
   */
  method UserRegistration(store: UserStore, form: RegistrationForm, newId: ObjectId) returns (out: Outcome)
    requires store.Valid()
    modifies store
    ensures store.Valid()
    ensures !form.Complete() ==>
      out == Sent(400, StatusMessage(Failed, AllFieldsRequired)) && unchanged(store)
    ensures form.Complete() && form.password != form.confirmPassword ==>
      out == Sent(400, StatusMessage(Failed, PasswordsDoNotMatch)) && unchanged(store)
    ensures form.Confirmed() && EmailTaken(old(store.docs), form.email.value) ==>
      out == Sent(400, StatusMessage(Failed, EmailAlreadyExists)) && unchanged(store)
    ensures form.Confirmed() && !EmailTaken(old(store.docs), form.email.value) && newId in old(store.docs) ==>
      out == Sent(500, StatusMessage(Failed, InternalServerError)) && unchanged(store)
    ensures form.Confirmed() && !EmailTaken(old(store.docs), form.email.value) && newId !in old(store.docs) ==>
      && out == Sent(201, UserCreated(Success, UserRegistered, Profile(newId, form.name.value, form.email.value)))
      && store.docs == old(store.docs)[newId := User(newId, form.name.value, form.email.value, Bcrypt.Hash(form.password.value))]
      && store.docs[newId].password != form.password.value
  {
    if !form.Complete() {
      return Sent(400, StatusMessage(Failed, AllFieldsRequired));
    }
    var name, email, password := form.name.value, form.email.value, form.password.value;
    if form.password != form.confirmPassword {
      return Sent(400, StatusMessage(Failed, PasswordsDoNotMatch));
    }
    var existingUser := store.FindOne(email);
    if existingUser.Some? {
      return Sent(400, StatusMessage(Failed, EmailAlreadyExists));
    }
    var hashedPassword := Bcrypt.Hash(password);
    Bcrypt.HashIsNotPlaintext(password);
    var created := store.Create(User(newId, name, email, hashedPassword));
    if created.Err? {
      return Sent(500, StatusMessage(Failed, InternalServerError));
    }
    var newUser := created.value;
    out := Sent(201, UserCreated(Success, UserRegistered, newUser.WithoutPassword()));
  }

  /**
   * Login; it never writes the store. A missing field, an unknown email and
   * a wrong password each answer 400, in that order; otherwise 200 carries a
   * token for the user's id, signed with the global secret for one day. An
   * empty global secret makes `jwt.sign` throw, which answers 500.
   */
  method UserLogin(store: UserStore, form: LoginForm, jwtSecret: string, now: nat) returns (out: Outcome)
    requires store.Valid()
    ensures !(Truthy(form.email) && Truthy(form.password)) ==>
      out == Sent(400, StatusMessage(Failed, LoginFieldsRequired))
    ensures Truthy(form.email) && Truthy(form.password) && store.FindOne(form.email.value).None? ==>
      out == Sent(400, StatusMessage(Failed, NotRegistered))
    ensures Truthy(form.email) && Truthy(form.password) && store.FindOne(form.email.value).Some? ==>
      var user := store.FindOne(form.email.value).value;
      && (!Bcrypt.Compare(form.password.value, user.password) ==>
            out == Sent(400, StatusMessage(Failed, InvalidCredentials)))
      && (Bcrypt.Compare(form.password.value, user.password) && jwtSecret == "" ==>
            out == Sent(500, StatusMessage(Failed, UnableToLogin)))
      && (Bcrypt.Compare(form.password.value, user.password) && jwtSecret != "" ==>
            out == Sent(200, TokenIssued(Success, LoggedIn, Jwt.Sign(user.id, jwtSecret, now, OneDay))))
  {
    if !(Truthy(form.email) && Truthy(form.password)) {
      return Sent(400, StatusMessage(Failed, LoginFieldsRequired));
    }
    var email, password := form.email.value, form.password.value;
    var user := store.FindOne(email);
    if user.None? {
      return Sent(400, StatusMessage(Failed, NotRegistered));
    }
    var isMatch := Bcrypt.Compare(password, user.value.password);
    if !isMatch {
      return Sent(400, StatusMessage(Failed, InvalidCredentials));
    }
    if jwtSecret == "" {
      return Sent(500, StatusMessage(Failed, UnableToLogin));
    }
    var token := Jwt.Sign(user.value.id, jwtSecret, now, OneDay);
    out := Sent(200, TokenIssued(Success, LoggedIn, token));
  }

  /**
   * Password change for the user that the bearer-token gate resolved. A
   * missing field or a confirmation that differs answers 400 and changes no
   * password; otherwise only that user's password becomes the hash of the
   * new one, and 200 follows (also when the user has meanwhile gone).
   */
  method ChangePassword(store: UserStore, user: Profile, form: PasswordForm) returns (out: Outcome)
    requires store.Valid()
    modifies store
    ensures store.Valid()
    ensures !form.Complete() ==>
      out == Sent(400, StatusMessage(Failed, AllFieldsRequired)) && unchanged(store)
    ensures form.Complete() && form.password != form.confirmPassword ==>
      out == Sent(400, StatusMessage(Failed, PasswordsDoNotMatch)) && unchanged(store)
    ensures form.Confirmed() ==>
      && out == Sent(200, StatusMessage(Success, PasswordChanged))
      && store.docs == if user.id in old(store.docs)
                       then old(store.docs)[user.id := old(store.docs)[user.id].(password := Bcrypt.Hash(form.password.value))]
                       else old(store.docs)
  {
    if !form.Complete() {
      return Sent(400, StatusMessage(Failed, AllFieldsRequired));
    }
    if form.password != form.confirmPassword {
      return Sent(400, StatusMessage(Failed, PasswordsDoNotMatch));
    }
    var newHashedPassword := Bcrypt.Hash(form.password.value);
    store.FindByIdAndUpdate(user.id, newHashedPassword);
    out := Sent(200, StatusMessage(Success, PasswordChanged));
  }

  /** The logged-in user: 200 with exactly the user the gate attached, and no store access. */
  method LoggedUser(user: Profile) returns (out: Outcome)
    ensures out == Sent(200, CurrentUser(Success, user))
  {
    out := Sent(200, CurrentUser(Success, user));
  }

  /**
   * Reset-link request; it never writes the store. A missing email answers
   * 400 and an unknown one 404, with nothing logged. For a known email the
   * console gets a link with the user's id and a token for that id, signed
   * with the user's reset secret for one hour, and 200 follows.
   */
  method SendUserPasswordResetEmail(store: UserStore, email: Option<string>, jwtSecret: string, now: nat)
    returns (out: Outcome, consoleLink: Option<string>)
    requires store.Valid()
    ensures !Truthy(email) ==> out == Sent(400, MessageOnly(EmailFieldRequired)) && consoleLink == None
    ensures Truthy(email) && store.FindOne(email.value).None? ==>
      out == Sent(404, MessageOnly(EmailDoesNotExist)) && consoleLink == None
    ensures Truthy(email) && store.FindOne(email.value).Some? ==>
      var user := store.FindOne(email.value).value;
      && out == Sent(200, StatusMessage(Success, ResetLinkGenerated))
      && consoleLink == Some(ResetLink(user.id, Jwt.Sign(user.id, ResetSecret(user.id, jwtSecret), now, OneHour)))
  {
    consoleLink := None;
    if !Truthy(email) {
      return Sent(400, MessageOnly(EmailFieldRequired)), consoleLink;
    }
    var user := store.FindOne(email.value);
    if user.None? {
      return Sent(404, MessageOnly(EmailDoesNotExist)), consoleLink;
    }
    var id := user.value.id;
    var secret := ResetSecret(id, jwtSecret);
    var token := Jwt.Sign(id, secret, now, OneHour);
    consoleLink := Some(ResetLink(id, token));
    out := Sent(200, StatusMessage(Success, ResetLinkGenerated));
  }

  /**
   * Whether the reset route's id names a stored user and its token verifies
   * against that user's reset secret at `now`.
   */
  predicate ResetAuthorized(docs: map<ObjectId, User>, id: string, token: string, jwtSecret: string, now: nat)
  {
    var key := CastObjectId(id);
    key.Some? && key.value in docs && Jwt.Verify(Some(token), ResetSecret(key.value, jwtSecret), now).Ok?
  }

  /**
   * Password reset from the link. An id that is not an ObjectId, or names no
   * user, makes the handler throw before its `try`: no answer. A token that
   * does not verify against that user's reset secret is swallowed: no answer
   * either. Otherwise the form decides: both fields equal sets that user's
   * password to the hash of the new one and reports success; different or
   * missing fields report failure. Every answer is sent with 200, and only
   * the success changes the store.
   */
  method UserPasswordReset(store: UserStore, form: PasswordForm, id: string, token: string, jwtSecret: string, now: nat)
    returns (out: Outcome)
    requires store.Valid()
    modifies store
    ensures store.Valid()
    ensures CastObjectId(id).None? ==> out == Crashed(CastError) && unchanged(store)
    ensures CastObjectId(id).Some? && CastObjectId(id).value !in old(store.docs) ==>
      out == Crashed(TypeError) && unchanged(store)
    ensures CastObjectId(id).Some? && CastObjectId(id).value in old(store.docs) ==>
      (!ResetAuthorized(old(store.docs), id, token, jwtSecret, now) ==> out == NoResponse && unchanged(store))
    ensures ResetAuthorized(old(store.docs), id, token, jwtSecret, now) && !form.Complete() ==>
      out == Sent(200, StatusMessage(Failed, ResetFieldsRequired)) && unchanged(store)
    ensures ResetAuthorized(old(store.docs), id, token, jwtSecret, now) && form.Complete() && !form.Confirmed() ==>
      out == Sent(200, StatusMessage(Failed, ResetPasswordsDoNotMatch)) && unchanged(store)
    ensures ResetAuthorized(old(store.docs), id, token, jwtSecret, now) && form.Confirmed() ==>
      var key := CastObjectId(id).value;
      && out == Sent(200, StatusMessage(Success, PasswordResetDone))
      && store.docs == old(store.docs)[key := old(store.docs)[key].(password := Bcrypt.Hash(form.password.value))]
  {
    var found := store.FindById(id);
    if found.Err? {
      return Crashed(CastError);
    }
    if found.value.None? {
      return Crashed(TypeError);
    }
    var user := found.value.value;
    var newSecret := ResetSecret(user.id, jwtSecret);
    var verified := Jwt.Verify(Some(token), newSecret, now);
    if verified.Err? {
      return NoResponse;
    }
    if form.Complete() {
      if form.password != form.confirmPassword {
        out := Sent(200, StatusMessage(Failed, ResetPasswordsDoNotMatch));
      } else {
        var resetNewHashedPassword := Bcrypt.Hash(form.password.value);
        store.FindByIdAndUpdate(user.id, resetNewHashedPassword);
        out := Sent(200, StatusMessage(Success, PasswordResetDone));
      }
    } else {
      out := Sent(200, StatusMessage(Failed, ResetFieldsRequired));
    }
  }

  // ---------------------------------------------------------------------
  // Reset tokens
  // ---------------------------------------------------------------------

  /**
   * A reset token issued for a user verifies against that user's own reset
   * secret, with the user's id as its claim, until its hour is over.
   */
  lemma ResetTokenRoundTrip(id: ObjectId, jwtSecret: string, issuedAt: nat, now: nat)
    ensures var secret := ResetSecret(id, jwtSecret);
      Jwt.Verify(Some(Jwt.Sign(id, secret, issuedAt, OneHour)), secret, now)
        == if now < issuedAt + OneHour then Ok(Jwt.Claims(id, issuedAt + OneHour)) else Err(Jwt.Expired)
  {
    Jwt.VerifySigned(id, ResetSecret(id, jwtSecret), ResetSecret(id, jwtSecret), issuedAt, OneHour, now);
  }

  /** A reset token issued for one user never verifies against another user's reset secret. */
  lemma ResetTokenBoundToUser(id: ObjectId, other: ObjectId, jwtSecret: string, issuedAt: nat, now: nat)
    requires other != id
    ensures Jwt.Verify(Some(Jwt.Sign(id, ResetSecret(id, jwtSecret), issuedAt, OneHour)),
                       ResetSecret(other, jwtSecret), now) == Err(Jwt.InvalidSignature)
  {
    assert ResetSecret(other, jwtSecret) != ResetSecret(id, jwtSecret) by {
      assert ResetSecret(other, jwtSecret)[..24] == other;
      assert ResetSecret(id, jwtSecret)[..24] == id;
    }
    Jwt.VerifySigned(id, ResetSecret(id, jwtSecret), ResetSecret(other, jwtSecret), issuedAt, OneHour, now);
  }

  /**
   * A session token never verifies as a reset token, nor a reset token as a
   * session token: the two secrets differ, since a reset secret is 24
   * characters longer. ResetSignatureSignsNoSession extends this from the
   * token issued to every token built around a reset signature.
   */
  lemma SessionAndResetTokensDisjoint(id: ObjectId, other: ObjectId, jwtSecret: string, issuedAt: nat, now: nat)
    requires jwtSecret != ""
    ensures Jwt.Verify(Some(Jwt.Sign(id, jwtSecret, issuedAt, OneDay)), ResetSecret(other, jwtSecret), now)
      == Err(Jwt.InvalidSignature)
    ensures Jwt.Verify(Some(Jwt.Sign(id, ResetSecret(id, jwtSecret), issuedAt, OneHour)), jwtSecret, now)
      == Err(Jwt.InvalidSignature)
  {
    Jwt.VerifySigned(id, jwtSecret, ResetSecret(other, jwtSecret), issuedAt, OneDay, now);
    Jwt.VerifySigned(id, ResetSecret(id, jwtSecret), jwtSecret, issuedAt, OneHour, now);
  }

  /** No signature made under the global secret is a signature made under a reset secret. */
  lemma ResetSignatureIsNoSessionSignature(payload: string, other: string, id: ObjectId, jwtSecret: string)
    ensures Jwt.Signature(payload, jwtSecret) != Jwt.Signature(other, ResetSecret(id, jwtSecret))
  {
    if Jwt.Signature(payload, jwtSecret) == Jwt.Signature(other, ResetSecret(id, jwtSecret)) {
      Jwt.SignatureInjective(payload, jwtSecret, other, ResetSecret(id, jwtSecret));
    }
  }

  /**
   * A token whose third part is a signature made under a reset secret is
   * refused under the global secret, whatever its first two parts say, so a
   * reset token with its payload rewritten does not pass the gate.
   */
  lemma ResetSignatureSignsNoSession(token: string, other: string, id: ObjectId, jwtSecret: string, now: nat)
    requires |Text.Split(token, '.')| == 3
    requires Text.Split(token, '.')[2] == Jwt.Signature(other, ResetSecret(id, jwtSecret))
    ensures Jwt.Verify(Some(token), jwtSecret, now).Err?
  {
    var parts := Text.Split(token, '.');
    ResetSignatureIsNoSessionSignature(parts[0] + "." + parts[1], other, id, jwtSecret);
  }

  /**
   * Reading a reset link back as the page it names reads its path: the
   * fixed prefix, then exactly two segments, the id and the token.
   */
  function ParseResetLink(link: string): (r: Option<(string, string)>)
    ensures r.Some? ==> '/' !in r.value.0 && '/' !in r.value.1
    ensures r.Some? ==> link == ResetLinkBase + "/" + r.value.0 + "/" + r.value.1
  {
    var prefix := ResetLinkBase + "/";
    if !Text.StartsWith(link, prefix) then None
    else
      var segments := Text.Split(link[|prefix|..], '/');
      if |segments| == 2 then
        Text.PrefixThenTwo(link, prefix, segments[0], segments[1], '/');
        Some((segments[0], segments[1]))
      else None
  }

  /** A reset link gives back the user's id and the token it was made from. */
  lemma ResetLinkRoundTrip(id: ObjectId, token: string)
    requires '/' !in token
    ensures ParseResetLink(ResetLink(id, token)) == Some((id, token))
  {
    var prefix := ResetLinkBase + "/";
    var link := ResetLink(id, token);
    assert link == prefix + (id + "/" + token);
    assert link[..|prefix|] == prefix && link[|prefix|..] == id + "/" + token;
    assert '/' !in id by {
      ObjectIdIsAlphanumeric(id);
    }
    assert Text.Join([id, token], '/') == id + "/" + token by {
      Text.JoinCons(id, [token], '/');
    }
    Text.SplitJoin([id, token], '/');
  }
}
