/**
  The User model: the stored record, the `trim`/`lowercase` setters, the
  `required` and `minlength` validators, the unique index on email, the
  `updatedAt` pre-save hook, `comparePassword` and `toJSON`, and the
  collection the user controller creates in and saves to.
 */
module UserSchema {
  import opened Js

  type UserId = nat

  /**
    A user document. A required string path that was never set is held as
    the empty string: the `required` validator rejects both alike.
   */
  datatype User = User(
    id: UserId,
    firstName: string,
    lastName: string,
    email: string,
    password: string,
    profileImage: Option<string>,
    profileImagePublicId: Option<string>,
    createdAt: Time,
    updatedAt: Time)

  /** The paths whose validators can fail (the email format check is not modelled). */
  datatype Field = FirstName | LastName | Email | Password

  const MinPasswordLength: nat := 6

  /** No uppercase ASCII letter and no whitespace at either end. */
  predicate IsNormalEmail(e: string) {
    IsTrimmed(e) && forall i :: 0 <= i < |e| ==> !('A' <= e[i] <= 'Z')
  }

  /** The email path's setters: `trim`, then `lowercase`. */
  function Normalize(e: string): (r: string)
    ensures exists t :: CutFromEnds(e, t) && IsLowerOf(t, r)
    ensures IsNormalEmail(r)
    ensures IsNormalEmail(e) ==> r == e
    ensures r == [] <==> AllSpace(e)
  {
    LowerKeepsTrimmed(Trim(e));
    assert CutFromEnds(e, Trim(e)) && IsLowerOf(Trim(e), Lower(Trim(e)));
    if IsNormalEmail(e) then
      NormalFixed(e);
      Lower(Trim(e))
    else
      Lower(Trim(e))
  }

  lemma LowerKeepsTrimmed(t: string)
    requires IsTrimmed(t)
    ensures IsTrimmed(Lower(t))
  {
    var r := Lower(t);
    if r != [] {
      assert IsSpace(r[0]) == IsSpace(t[0]);
      assert IsSpace(r[|r| - 1]) == IsSpace(t[|t| - 1]);
    }
  }

  lemma NormalFixed(e: string)
    requires IsNormalEmail(e)
    ensures Lower(Trim(e)) == e
  {
    assert Trim(e) == e;
    var r := Lower(e);
    forall i | 0 <= i < |e| ensures r[i] == e[i] {
      assert !('A' <= e[i] <= 'Z');
    }
    assert r == e;
  }

  /** The validators that fail on `u`: the four `required` paths and the password's `minlength`. */
  function Errors(u: User): (errs: set<Field>)
    ensures FirstName in errs <==> u.firstName == ""
    ensures LastName in errs <==> u.lastName == ""
    ensures Email in errs <==> u.email == ""
    ensures Password in errs <==> Utf16Length(u.password) < MinPasswordLength
  {
    (if u.firstName == "" then {FirstName} else {})
    + (if u.lastName == "" then {LastName} else {})
    + (if u.email == "" then {Email} else {})
    + (if Utf16Length(u.password) < MinPasswordLength then {Password} else {})
  }

  /** Three characters outside the Basic Multilingual Plane already make a long enough password. */
  lemma AstralPasswordLongEnough(u: User)
    requires u.password == "\U{1F600}\U{1F600}\U{1F600}"
    ensures |u.password| == 3
    ensures Password !in Errors(u)
  {
    var p := u.password;
    assert p[0] as int > 0xFFFF && p[1..][0] as int > 0xFFFF && p[1..][1..][0] as int > 0xFFFF;
    assert p[1..][1..][1..] == [];
    assert Utf16Length(p[1..][1..]) == 2;
    assert Utf16Length(p[1..]) == 4;
    assert Utf16Length(p) == 6;
  }

  /** Every setter has run: names trimmed, email trimmed and lowercased. */
  predicate Normalized(u: User) {
    IsTrimmed(u.firstName) && IsTrimmed(u.lastName) && IsNormalEmail(u.email)
  }

  /** What a stored user looks like. */
  predicate UserConforms(u: User) {
    Errors(u) == {} && Normalized(u)
  }

  predicate UsersKeyed(users: map<UserId, User>) {
    forall k :: k in users ==> users[k].id == k
  }

  /** The unique index on email. */
  predicate UniqueEmails(users: map<UserId, User>) {
    forall a, b :: a in users && b in users && a != b ==> users[a].email != users[b].email
  }

  /** Some user other than `self` holds `email`: what makes the unique index refuse a write. */
  predicate EmailHeldByOther(users: map<UserId, User>, email: string, self: UserId) {
    exists k :: k in users && k != self && users[k].email == email
  }

  /** Why a save fails: a validation error, or a duplicate key on the email index. */
  datatype SaveError = Invalid(paths: set<Field>) | DuplicateEmail

  /** `new User({...})`: setters on the given paths, then the defaults. */
  function NewDocument(id: UserId, firstName: Option<string>, lastName: Option<string>,
                       email: Option<string>, password: Option<string>, now: Time): (u: User)
    ensures Normalized(u)
    ensures u.id == id && u.createdAt == now && u.updatedAt == now
    ensures u.profileImage.None? && u.profileImagePublicId.None?
    ensures u.firstName == "" <==> firstName.None? || AllSpace(firstName.value)
    ensures u.lastName == "" <==> lastName.None? || AllSpace(lastName.value)
    ensures u.email == "" <==> email.None? || AllSpace(email.value)
    ensures firstName.Some? ==> u.firstName == Trim(firstName.value)
    ensures lastName.Some? ==> u.lastName == Trim(lastName.value)
    ensures email.Some? ==> u.email == Normalize(email.value)
    ensures password.Some? ==> u.password == password.value
    ensures password.None? ==> u.password == ""
  {
    User(id,
         if firstName.Some? then Trim(firstName.value) else "",
         if lastName.Some? then Trim(lastName.value) else "",
         if email.Some? then Normalize(email.value) else "",
         if password.Some? then password.value else "",
         None, None, now, now)
  }

  /** The pre-save hook: stamps `updatedAt` and touches nothing else. */
  function PreSave(u: User, now: Time): (r: User)
    ensures r.updatedAt == now
    ensures r.(updatedAt := u.updatedAt) == u
  {
    u.(updatedAt := now)
  }

  /**
    `doc.save()`: validation first, then the pre-save hook, then the write,
    which the unique index refuses when another user holds the email.
   */
  function Persist(users: map<UserId, User>, doc: User, now: Time): (r: Result<User, SaveError>)
    ensures r.Failure? <==> Errors(doc) != {} || EmailHeldByOther(users, doc.email, doc.id)
    ensures r.Failure? && Errors(doc) != {} ==> r.error == Invalid(Errors(doc))
    ensures r.Failure? && Errors(doc) == {} ==> r.error == DuplicateEmail
    ensures r.Success? ==> r.value == PreSave(doc, now)
  {
    var errs := Errors(doc);
    if errs != {} then Failure(Invalid(errs))
    else if EmailHeldByOther(users, doc.email, doc.id) then Failure(DuplicateEmail)
    else Success(PreSave(doc, now))
  }

  /** What a successful save writes can be stored next to the other users without breaking the index. */
  lemma PersistKeepsIndex(users: map<UserId, User>, doc: User, now: Time)
    requires UsersKeyed(users) && UniqueEmails(users)
    requires Persist(users, doc, now).Success?
    ensures UsersKeyed(users[doc.id := Persist(users, doc, now).value])
    ensures UniqueEmails(users[doc.id := Persist(users, doc, now).value])
  {
    var u := Persist(users, doc, now).value;
    var m := users[doc.id := u];
    forall a, b | a in m && b in m && a != b ensures m[a].email != m[b].email {
      if a == doc.id {
        assert !EmailHeldByOther(users, doc.email, doc.id);
        assert b in users && b != doc.id;
      } else if b == doc.id {
        assert !EmailHeldByOther(users, doc.email, doc.id);
        assert a in users && a != doc.id;
      }
    }
  }

  /** `comparePassword`: plain equality with the stored password. */
  function ComparePassword(u: User, candidate: string): (ok: bool)
    ensures ok <==> candidate == u.password
  {
    candidate == u.password
  }

  /** What `toJSON` yields: every path but the password. */
  datatype UserJson = UserJson(
    id: UserId,
    firstName: string,
    lastName: string,
    email: string,
    profileImage: Option<string>,
    profileImagePublicId: Option<string>,
    createdAt: Time,
    updatedAt: Time)

  function ToJSON(u: User): (j: UserJson)
    ensures j.id == u.id && j.firstName == u.firstName && j.lastName == u.lastName && j.email == u.email
    ensures j.profileImage == u.profileImage && j.profileImagePublicId == u.profileImagePublicId
    ensures j.createdAt == u.createdAt && j.updatedAt == u.updatedAt
  {
    UserJson(u.id, u.firstName, u.lastName, u.email, u.profileImage, u.profileImagePublicId,
             u.createdAt, u.updatedAt)
  }

  /** Two users serialise alike exactly when they differ at most in their passwords. */
  lemma ToJSONForgetsOnlyPassword(u1: User, u2: User)
    ensures ToJSON(u1) == ToJSON(u2) <==> u1.(password := u2.password) == u2
  {
  }

  /** The User collection: documents by id and the next id it hands out. */
  class UserCollection {
    var users: map<UserId, User>
    var nextId: UserId

    ghost predicate Valid()
      reads this
    {
      && UsersKeyed(users)
      && UniqueEmails(users)
      && forall k :: k in users ==> k < nextId && UserConforms(users[k])
    }

    constructor ()
      ensures Valid() && users == map[]
    {
      users := map[];
      nextId := 0;
    }

    /** `User.create({...})`: a new document under the next id, saved. */
    method Create(firstName: Option<string>, lastName: Option<string>, email: Option<string>,
                  password: Option<string>, now: Time) returns (r: Result<User, SaveError>)
      requires Valid()
      modifies this
      ensures Valid()
      ensures r == Persist(old(users), NewDocument(old(nextId), firstName, lastName, email, password, now), now)
      ensures r.Success? ==> old(nextId) !in old(users) && users == old(users)[old(nextId) := r.value]
      ensures r.Failure? ==> users == old(users)
    {
      var doc := NewDocument(nextId, firstName, lastName, email, password, now);
      r := Persist(users, doc, now);
      if r.Success? {
        Insert(r.value);
      }
    }

    /** Stores a validated, index-respecting document under the next id. */
    method Insert(doc: User)
      requires Valid() && doc.id == nextId && UserConforms(doc)
      requires !EmailHeldByOther(users, doc.email, doc.id)
      modifies this
      ensures Valid()
      ensures nextId == old(nextId) + 1
      ensures old(nextId) !in old(users) && users == old(users)[doc.id := doc]
    {
      PersistKeepsIndex(users, doc, doc.updatedAt);
      users := users[nextId := doc];
      nextId := nextId + 1;
    }

    /** `doc.save()` on a document already stored, after its setters ran. */
    method Save(doc: User, now: Time) returns (r: Result<User, SaveError>)
      requires Valid() && doc.id in users && Normalized(doc)
      modifies this
      ensures Valid() && nextId == old(nextId)
      ensures r == Persist(old(users), doc, now)
      ensures users == if r.Success? then old(users)[doc.id := r.value] else old(users)
    {
      r := Persist(users, doc, now);
      if r.Success? {
        PersistKeepsIndex(users, doc, now);
        users := users[doc.id := r.value];
      }
    }
  }
}
