/**
  The user controller: registration, login, profile read and update, and the
  profile-image handlers, run against the User collection and a file store
  that is only a set of paths. Email lookups go through the email path's
  setters, so they compare the trimmed, lowercased form of the request value.
 */
module UserController {
  import opened Js
  import opened UserSchema

  /** The request body fields the handlers read; `None` is a key the body does not carry. */
  datatype UserBody = UserBody(
    firstName: Option<string>,
    lastName: Option<string>,
    email: Option<string>,
    password: Option<string>)

  const EmptyBody := UserBody(None, None, None, None)

  /** The signed token, reduced to the id it is issued for. */
  datatype Token = Token(subject: UserId)

  /** The `data` object of a user response. There is no password field to fill. */
  datatype UserView = UserView(
    id: UserId,
    firstName: string,
    lastName: string,
    email: string,
    profileImage: Option<string>,
    createdAt: Time,
    updatedAt: Option<Time>,
    token: Option<Token>)

  /** `v` carries `u`'s id, names, email, image and creation time, the paths every view copies. */
  predicate Shows(v: UserView, u: User) {
    && v.id == u.id && v.firstName == u.firstName && v.lastName == u.lastName
    && v.email == u.email && v.profileImage == u.profileImage && v.createdAt == u.createdAt
  }

  /** The register and login responses: no `updatedAt`, a token for the user. */
  function AuthView(u: User): (v: UserView)
    ensures Shows(v, u)
    ensures v.updatedAt.None? && v.token == Some(Token(u.id))
  {
    UserView(u.id, u.firstName, u.lastName, u.email, u.profileImage, u.createdAt, None, Some(Token(u.id)))
  }

  /** The profile-update responses: `updatedAt` and a token. */
  function UpdatedView(u: User): (v: UserView)
    ensures Shows(v, u)
    ensures v.updatedAt == Some(u.updatedAt) && v.token == Some(Token(u.id))
  {
    UserView(u.id, u.firstName, u.lastName, u.email, u.profileImage, u.createdAt, Some(u.updatedAt), Some(Token(u.id)))
  }

  /** The image-deletion response: `updatedAt`, no token. */
  function ImageView(u: User): (v: UserView)
    ensures Shows(v, u)
    ensures v.updatedAt == Some(u.updatedAt) && v.token.None?
  {
    UserView(u.id, u.firstName, u.lastName, u.email, u.profileImage, u.createdAt, Some(u.updatedAt), None)
  }

  /** No response depends on the password: users differing only there get the same views. */
  lemma ViewsOmitPassword(u: User, p: string)
    ensures AuthView(u.(password := p)) == AuthView(u)
    ensures UpdatedView(u.(password := p)) == UpdatedView(u)
    ensures ImageView(u.(password := p)) == ImageView(u)
    ensures ToJSON(u.(password := p)) == ToJSON(u)
  {
  }

  /** `User.findOne({ email })` finds someone; an absent key matches nobody. */
  predicate EmailTaken(users: map<UserId, User>, email: Option<string>) {
    email.Some? && exists k :: k in users && users[k].email == Normalize(email.value)
  }

  /** `User.findOne({ email })` for a given email: the holder of its normalised form, if any. */
  ghost function FindByEmail(users: map<UserId, User>, email: string): (r: Option<User>)
    ensures r.Some? <==> EmailTaken(users, Some(email))
    ensures r.Some? ==> exists k :: k in users && users[k] == r.value && r.value.email == Normalize(email)
    ensures UniqueEmails(users) ==>
      forall k :: k in users && users[k].email == Normalize(email) ==> r == Some(users[k])
  {
    if EmailTaken(users, Some(email)) then
      var k :| k in users && users[k].email == Normalize(email);
      Some(users[k])
    else
      None
  }

  /** The file store: the set of paths that exist. */
  class FileSystem {
    var paths: set<string>

    constructor (initial: set<string>)
      ensures paths == initial
    {
      paths := initial;
    }
  }

  /** The paths left once `path` is unlinked, when it is truthy. */
  function Unlinked(files: set<string>, path: Option<string>): (r: set<string>)
    ensures r <= files
    ensures forall q :: q in files ==> (q in r <==> !(TruthyString(path) && q == path.value))
  {
    if TruthyString(path) then files - {path.value} else files
  }

  lemma UnlinkedIdempotent(files: set<string>, path: Option<string>)
    ensures Unlinked(Unlinked(files, path), path) == Unlinked(files, path)
  {
  }

  /** deleteOldImage: unlinks a truthy path that exists, and does nothing otherwise. */
  method DeleteOldImage(fs: FileSystem, imagePath: Option<string>)
    modifies fs
    ensures fs.paths == Unlinked(old(fs.paths), imagePath)
  {
    if TruthyString(imagePath) && imagePath.value in fs.paths {
      fs.paths := fs.paths - {imagePath.value};
    }
  }

  /** registerUser: 400 when the email is held, else create; 500 when the save fails. */
  method RegisterUser(db: UserCollection, body: UserBody, now: Time) returns (status: Status, view: Option<UserView>)
    requires db.Valid()
    modifies db
    ensures db.Valid()
    ensures EmailTaken(old(db.users), body.email) ==>
      status == BadRequest && view == None && db.users == old(db.users)
    ensures !EmailTaken(old(db.users), body.email) ==>
      match Persist(old(db.users), NewDocument(old(db.nextId), body.firstName, body.lastName, body.email, body.password, now), now)
      case Success(u) =>
        status == Created && view == Some(AuthView(u))
        && old(db.nextId) !in old(db.users) && db.users == old(db.users)[u.id := u]
      case Failure(_) =>
        status == ServerError && view == None && db.users == old(db.users)
  {
    if EmailTaken(db.users, body.email) {
      return BadRequest, None;
    }
    var r := db.Create(body.firstName, body.lastName, body.email, body.password, now);
    if r.Failure? {
      return ServerError, None;
    }
    return Created, Some(AuthView(r.value));
  }

  /** The lookup before registration means the unique index never refuses the insert. */
  lemma {:induction false} RegistrationNeverHitsIndex(users: map<UserId, User>, id: UserId, body: UserBody, now: Time)
    requires !EmailTaken(users, body.email)
    ensures Persist(users, NewDocument(id, body.firstName, body.lastName, body.email, body.password, now), now)
      != Failure(DuplicateEmail)
  {
    var doc := NewDocument(id, body.firstName, body.lastName, body.email, body.password, now);
    if body.email.Some? {
      assert doc.email == Normalize(body.email.value);
      assert !EmailHeldByOther(users, doc.email, doc.id);
    }
  }

  /** loginUser: 400 for a falsy email or password, one and the same 401 for every other failure. */
  ghost function LoginUser(users: map<UserId, User>, body: UserBody): (r: Result<UserView, Status>)
    ensures r == Failure(BadRequest) <==> !TruthyString(body.email) || !TruthyString(body.password)
    ensures r.Failure? && r.error != BadRequest ==> r.error == Unauthorized
    ensures r.Success? ==>
      exists k :: k in users && users[k].email == Normalize(body.email.value)
        && users[k].password == body.password.value && r.value == AuthView(users[k])
    ensures UniqueEmails(users) && TruthyString(body.email) && TruthyString(body.password) ==>
      (r.Success? <==> exists k :: k in users && users[k].email == Normalize(body.email.value)
                                  && users[k].password == body.password.value)
  {
    if !TruthyString(body.email) || !TruthyString(body.password) then
      Failure(BadRequest)
    else
      match FindByEmail(users, body.email.value)
      case None => Failure(Unauthorized)
      case Some(u) =>
        if ComparePassword(u, body.password.value) then Success(AuthView(u)) else Failure(Unauthorized)
  }

  /** An unknown email and a wrong password are answered alike. */
  lemma LoginRejectsAlike(unknown: map<UserId, User>, known: map<UserId, User>, body: UserBody)
    requires TruthyString(body.email) && TruthyString(body.password) && UniqueEmails(known)
    requires !EmailTaken(unknown, body.email)
    requires forall k :: k in known && known[k].email == Normalize(body.email.value) ==>
      known[k].password != body.password.value
    ensures LoginUser(unknown, body) == LoginUser(known, body) == Failure(Unauthorized)
  {
  }

  /** getUserProfile: the caller's document without the password, or 404. */
  function GetUserProfile(users: map<UserId, User>, caller: UserId): (r: Result<UserJson, Status>)
    ensures r.Failure? <==> caller !in users
    ensures r.Failure? ==> r.error == NotFound
    ensures r.Success? ==> r.value == ToJSON(users[caller])
  {
    if caller in users then Success(ToJSON(users[caller])) else Failure(NotFound)
  }

  /** Changing a stored password changes nothing the profile shows. */
  lemma ProfileHidesPassword(users: map<UserId, User>, caller: UserId, p: string)
    requires caller in users
    ensures GetUserProfile(users[caller := users[caller].(password := p)], caller) == GetUserProfile(users, caller)
  {
    ViewsOmitPassword(users[caller], p);
  }

  /** The update asks for a new email: truthy and not equal, as sent, to the stored one. */
  predicate EmailChangeRequested(u: User, body: UserBody) {
    TruthyString(body.email) && body.email.value != u.email
  }

  /**
    The document after the profile assignments: names and password replaced
    when truthy (through their setters), the email when a change is requested
    and nobody holds it; 400 when somebody does.
   */
  function ProfilePatch(users: map<UserId, User>, u: User, body: UserBody): (r: Result<User, Status>)
    ensures r.Failure? <==> EmailChangeRequested(u, body) && EmailTaken(users, body.email)
    ensures r.Failure? ==> r.error == BadRequest
    ensures r.Success? ==>
      && r.value.id == u.id && r.value.createdAt == u.createdAt && r.value.updatedAt == u.updatedAt
      && r.value.profileImage == u.profileImage && r.value.profileImagePublicId == u.profileImagePublicId
      && (TruthyString(body.firstName) ==> r.value.firstName == Trim(body.firstName.value))
      && (!TruthyString(body.firstName) ==> r.value.firstName == u.firstName)
      && (TruthyString(body.lastName) ==> r.value.lastName == Trim(body.lastName.value))
      && (!TruthyString(body.lastName) ==> r.value.lastName == u.lastName)
      && (EmailChangeRequested(u, body) ==> r.value.email == Normalize(body.email.value))
      && (!EmailChangeRequested(u, body) ==> r.value.email == u.email)
      && (TruthyString(body.password) ==> r.value.password == body.password.value)
      && (!TruthyString(body.password) ==> r.value.password == u.password)
    ensures body == EmptyBody ==> r == Success(u)
  {
    var named := u.(firstName := if TruthyString(body.firstName) then Trim(body.firstName.value) else u.firstName,
                    lastName := if TruthyString(body.lastName) then Trim(body.lastName.value) else u.lastName);
    if EmailChangeRequested(u, body) && EmailTaken(users, body.email) then
      Failure(BadRequest)
    else
      var mailed := if EmailChangeRequested(u, body) then named.(email := Normalize(body.email.value)) else named;
      Success(if TruthyString(body.password) then mailed.(password := body.password.value) else mailed)
  }

  /**
    The collision check compares the raw request value with the stored email
    but looks the normalised one up, so re-sending one's own email in other
    letter case or with surrounding spaces is refused as already in use.
   */
  lemma OwnEmailRecasedIsRejected(users: map<UserId, User>, caller: UserId, body: UserBody)
    requires caller in users
    requires TruthyString(body.email) && body.email.value != users[caller].email
    requires Normalize(body.email.value) == users[caller].email
    ensures ProfilePatch(users, users[caller], body) == Failure(BadRequest)
  {
    assert EmailTaken(users, body.email);
  }

  /** A stored user's own email is held by nobody else. */
  lemma OwnEmailNotHeldByOther(users: map<UserId, User>, caller: UserId)
    requires UniqueEmails(users) && caller in users
    ensures !EmailHeldByOther(users, users[caller].email, caller)
  {
  }

  /** Once the collision check passes, the unique index never refuses the save. */
  lemma {:induction false} PatchNeverHitsIndex(users: map<UserId, User>, caller: UserId, u: User, body: UserBody)
    requires UniqueEmails(users) && caller in users && u.id == caller && u.email == users[caller].email
    requires ProfilePatch(users, u, body).Success?
    ensures !EmailHeldByOther(users, ProfilePatch(users, u, body).value.email, caller)
  {
    var doc := ProfilePatch(users, u, body).value;
    if EmailChangeRequested(u, body) {
      assert !EmailTaken(users, body.email);
      assert doc.email == Normalize(body.email.value);
    } else {
      OwnEmailNotHeldByOther(users, caller);
    }
  }

  /** The stored user, with the truthy body fields applied step by step as the handler does. */
  method ApplyProfileFields(users: map<UserId, User>, u: User, body: UserBody) returns (r: Result<User, Status>)
    requires Normalized(u)
    ensures r == ProfilePatch(users, u, body)
    ensures r.Success? ==> Normalized(r.value)
  {
    var user := u;
    if TruthyString(body.firstName) {
      user := user.(firstName := Trim(body.firstName.value));
    }
    if TruthyString(body.lastName) {
      user := user.(lastName := Trim(body.lastName.value));
    }
    if TruthyString(body.email) && body.email.value != user.email {
      if EmailTaken(users, body.email) {
        return Failure(BadRequest);
      }
      user := user.(email := Normalize(body.email.value));
    }
    if TruthyString(body.password) {
      user := user.(password := body.password.value);
    }
    return Success(user);
  }

  /** updateUserProfile: 404, the 400 collision, a 500 failed save, or 200 with the saved document. */
  method UpdateUserProfile(db: UserCollection, caller: UserId, body: UserBody, now: Time)
    returns (status: Status, view: Option<UserView>)
    requires db.Valid()
    modifies db
    ensures db.Valid()
    ensures caller !in old(db.users) ==> status == NotFound && view == None && db.users == old(db.users)
    ensures caller in old(db.users) ==>
      match ProfilePatch(old(db.users), old(db.users)[caller], body)
      case Failure(e) => status == e && view == None && db.users == old(db.users)
      case Success(doc) =>
        match Persist(old(db.users), doc, now)
        case Success(saved) => status == Ok && view == Some(UpdatedView(saved)) && db.users == old(db.users)[caller := saved]
        case Failure(_) => status == ServerError && view == None && db.users == old(db.users)
  {
    if caller !in db.users {
      return NotFound, None;
    }
    var patched := ApplyProfileFields(db.users, db.users[caller], body);
    if patched.Failure? {
      return patched.error, None;
    }
    var saved := db.Save(patched.value, now);
    if saved.Failure? {
      return ServerError, None;
    }
    return Ok, Some(UpdatedView(saved.value));
  }

  /** The document with the uploaded file's path as its image, when a file came with the request. */
  function WithUpload(u: User, upload: Option<string>): (r: User)
    ensures r.profileImage == if upload.Some? then upload else u.profileImage
    ensures r.(profileImage := u.profileImage) == u
  {
    if upload.Some? then u.(profileImage := upload) else u
  }

  /**
    updateUserProfileImage: unlinks the old image first, then applies the
    upload and the body as updateUserProfile does. The upload is unlinked
    again when the user is missing or the save fails, not on a 400.
   */
  method UpdateUserProfileImage(db: UserCollection, fs: FileSystem, caller: UserId, upload: Option<string>,
                                body: UserBody, now: Time)
    returns (status: Status, view: Option<UserView>)
    requires db.Valid()
    modifies db, fs
    ensures db.Valid()
    ensures caller !in old(db.users) ==>
      status == NotFound && view == None && db.users == old(db.users) && fs.paths == Unlinked(old(fs.paths), upload)
    ensures caller in old(db.users) ==>
      var u := old(db.users)[caller];
      var cleared := Unlinked(old(fs.paths), u.profileImage);
      match ProfilePatch(old(db.users), WithUpload(u, upload), body)
      case Failure(e) => status == e && view == None && db.users == old(db.users) && fs.paths == cleared
      case Success(doc) =>
        match Persist(old(db.users), doc, now)
        case Success(saved) =>
          status == Ok && view == Some(UpdatedView(saved)) && db.users == old(db.users)[caller := saved]
          && fs.paths == cleared
        case Failure(_) =>
          status == ServerError && view == None && db.users == old(db.users)
          && fs.paths == Unlinked(cleared, upload)
    ensures caller in old(db.users) && status == BadRequest ==>
      db.users[caller] == old(db.users)[caller]
      && (TruthyString(old(db.users)[caller].profileImage) ==> old(db.users)[caller].profileImage.value !in fs.paths)
  {
    if caller !in db.users {
      if upload.Some? {
        DeleteOldImage(fs, upload);
      }
      return NotFound, None;
    }
    var user := db.users[caller];
    if TruthyString(user.profileImage) {
      DeleteOldImage(fs, user.profileImage);
    }
    user := WithUpload(user, upload);
    var patched := ApplyProfileFields(db.users, user, body);
    if patched.Failure? {
      return patched.error, None;
    }
    var saved := db.Save(patched.value, now);
    if saved.Failure? {
      if upload.Some? {
        DeleteOldImage(fs, upload);
      }
      return ServerError, None;
    }
    return Ok, Some(UpdatedView(saved.value));
  }

  /** The document once its image is dropped: both image paths cleared, then stamped by the save. */
  function WithoutImage(u: User, now: Time): (r: User)
    ensures r.profileImage.None? && r.profileImagePublicId.None? && r.updatedAt == now
    ensures r.(profileImage := u.profileImage, profileImagePublicId := u.profileImagePublicId, updatedAt := u.updatedAt) == u
  {
    PreSave(u.(profileImage := None, profileImagePublicId := None), now)
  }

  /**
    deleteUserProfileImage: 404, or 200. With an image, the file is unlinked
    and the cleared document saved; without one nothing is touched.
   */
  method DeleteUserProfileImage(db: UserCollection, fs: FileSystem, caller: UserId, now: Time)
    returns (status: Status, view: Option<UserView>)
    requires db.Valid()
    modifies db, fs
    ensures db.Valid()
    ensures caller !in old(db.users) ==>
      status == NotFound && view == None && db.users == old(db.users) && fs.paths == old(fs.paths)
    ensures caller in old(db.users) && TruthyString(old(db.users)[caller].profileImage) ==>
      var u := WithoutImage(old(db.users)[caller], now);
      status == Ok && view == Some(ImageView(u)) && db.users == old(db.users)[caller := u]
      && fs.paths == old(fs.paths) - {old(db.users)[caller].profileImage.value}
    ensures caller in old(db.users) && !TruthyString(old(db.users)[caller].profileImage) ==>
      status == Ok && view == Some(ImageView(old(db.users)[caller]))
      && db.users == old(db.users) && fs.paths == old(fs.paths)
  {
    if caller !in db.users {
      return NotFound, None;
    }
    var user := db.users[caller];
    if TruthyString(user.profileImage) {
      DeleteOldImage(fs, user.profileImage);
      user := user.(profileImage := None, profileImagePublicId := None);
      OwnEmailNotHeldByOther(db.users, caller);
      var saved := db.Save(user, now);
      assert saved.Success?;
      user := saved.value;
    }
    return Ok, Some(ImageView(user));
  }
}
