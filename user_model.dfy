/**
 * The user collection that the controller and the middleware reach through
 * the mongoose model `userModel`. The collection is an in-memory map from
 * ObjectId to document, with the index on email that keeps `findOne({ email })`
 * a lookup. The schema file itself is not part of this model; the document
 * fields are the ones the controller creates.
 */
module UserModel {
  import opened Results
  import Text
  import Bcrypt

  predicate IsHexDigit(c: char)
  {
    '0' <= c <= '9' || 'a' <= c <= 'f'
  }

  /** The text of an ObjectId as `toString()` gives it: 24 lower-case hex digits. */
  predicate IsObjectIdText(s: string)
  {
    |s| == 24 && forall i :: 0 <= i < |s| ==> IsHexDigit(s[i])
  }

  type ObjectId = s: string | IsObjectIdText(s) witness "000000000000000000000000"

  lemma ObjectIdIsAlphanumeric(id: ObjectId)
    ensures Text.IsAlphanumeric(id)
  {
  }

  function LowerHex(c: char): (lower: char)
    ensures IsHexDigit(c) ==> IsHexDigit(lower)
    ensures !('A' <= c <= 'F') ==> lower == c
  {
    if 'A' <= c <= 'F' then (c as int + 32) as char else c
  }

  /**
   * Casting a string to an ObjectId, as mongoose does before `findById`:
   * only 24 hex digits (of either case) are accepted, and the id is their
   * lower-case form.
   */
  function CastObjectId(s: string): (r: Option<ObjectId>)
    ensures r.Some? <==> |s| == 24 && forall i :: 0 <= i < |s| ==> IsHexDigit(LowerHex(s[i]))
    ensures r.Some? ==> forall i :: 0 <= i < |s| ==> r.value[i] == LowerHex(s[i])
    ensures IsObjectIdText(s) ==> r == Some(s)
  {
    if |s| == 24 && forall i :: 0 <= i < |s| ==> IsHexDigit(LowerHex(s[i])) then
      var id: ObjectId := seq(24, i requires 0 <= i < 24 => LowerHex(s[i]));
      assert IsObjectIdText(s) ==> id == s by {
        if IsObjectIdText(s) {
          assert forall i :: 0 <= i < 24 ==> id[i] == s[i];
        }
      }
      Some(id)
    else None
  }

  /** A stored user document. */
  datatype User = User(id: ObjectId, name: string, email: string, password: string)
  {
    /** The document as `.select("-password")` returns it. */
    function WithoutPassword(): (p: Profile)
      ensures p.id == id && p.name == name && p.email == email
    {
      Profile(id, name, email)
    }
  }

  /** A user without the password field. */
  datatype Profile = Profile(id: ObjectId, name: string, email: string)

  datatype StoreError =
    | InvalidObjectId  // mongoose's CastError: the id is not an ObjectId
    | DuplicateKey     // MongoDB's E11000: the _id is already taken

  ghost predicate EmailTaken(docs: map<ObjectId, User>, email: string)
  {
    exists id :: id in docs && docs[id].email == email
  }

  class UserStore {
    var docs: map<ObjectId, User>
    var byEmail: map<string, ObjectId>

    /**
     * Every document is filed under its own id, holds a bcrypt hash as its
     * password, and is the only document with its email; the email index
     * lists exactly the stored emails.
     */
    ghost predicate Valid()
      reads this
    {
      && (forall id :: id in docs ==> docs[id].id == id && Bcrypt.IsHash(docs[id].password))
      && (forall id :: id in docs ==> docs[id].email in byEmail && byEmail[docs[id].email] == id)
      && (forall e :: e in byEmail ==> byEmail[e] in docs && docs[byEmail[e]].email == e)
    }

    constructor ()
      ensures Valid()
      ensures docs == map[]
    {
      docs := map[];
      byEmail := map[];
    }

    /** `userModel.findOne({ email })`: the user with that email, if there is one. */
    function FindOne(email: string): (r: Option<User>)
      reads this
      requires Valid()
      ensures r.Some? ==> r.value.id in docs && docs[r.value.id] == r.value && r.value.email == email
      ensures r.None? <==> !EmailTaken(docs, email)
    {
      if email in byEmail then Some(docs[byEmail[email]]) else None
    }

    /** `userModel.findById(id)`: a cast error, or the user with that id if there is one. */
    function FindById(id: string): (r: Result<Option<User>, StoreError>)
      reads this
      ensures r.Err? <==> CastObjectId(id).None?
      ensures r.Err? ==> r.error == InvalidObjectId
      ensures r.Ok? ==> r.value == (var key := CastObjectId(id).value; if key in docs then Some(docs[key]) else None)
    {
      match CastObjectId(id)
      case None => Err(InvalidObjectId)
      case Some(key) => Ok(if key in docs then Some(docs[key]) else None)
    }

    /**
     * `userModel.create(u)`. An _id that is already taken fails with a
     * duplicate-key error and stores nothing; otherwise exactly `u` is added.
     * The callers have checked that the email is free.
     */
    method Create(u: User) returns (r: Result<User, StoreError>)
      requires Valid()
      requires Bcrypt.IsHash(u.password)
      requires !EmailTaken(docs, u.email)
      modifies this
      ensures Valid()
      ensures u.id in old(docs) ==> r == Err(DuplicateKey) && unchanged(this)
      ensures u.id !in old(docs) ==> r == Ok(u) && docs == old(docs)[u.id := u]
    {
      if u.id in docs {
        return Err(DuplicateKey);
      }
      docs := docs[u.id := u];
      byEmail := byEmail[u.email := u.id];
      r := Ok(u);
    }

    /**
     * `userModel.findByIdAndUpdate(id, { password })`: the password of the
     * user with that id becomes `password`; without such a user nothing
     * changes.
     */
    method FindByIdAndUpdate(id: ObjectId, password: string)
      requires Valid()
      requires Bcrypt.IsHash(password)
      modifies this
      ensures Valid()
      ensures byEmail == old(byEmail)
      ensures docs == if id in old(docs) then old(docs)[id := old(docs)[id].(password := password)] else old(docs)
    {
      if id in docs {
        docs := docs[id := docs[id].(password := password)];
      }
    }
  }
}
