/** The signed-in user's own profile (src/app/api/user/update/route.ts):
    GET reads it, PUT merges the editable fields with phone-number
    uniqueness that excludes the caller, PATCH replaces only the picture.
    Every reply leaves out the credential fields. */
module Profile {
  import opened Common
  import opened Users

  /** The fields `select("-passwordHash -resetToken -resetTokenExpiry -emailOtp -phoneOtp")` drops. */
  const HIDDEN: set<Field> := {PasswordHash, ResetToken, ResetTokenExpiry, EmailOtp, PhoneOtp}

  /** What the profile routes return for an account. */
  function View(u: User): (d: UserDocument)
    ensures forall f :: f in HIDDEN ==> f !in d
    ensures forall f :: f !in HIDDEN ==> (f in d <==> Present(u, f))
    ensures forall f :: f in d ==> d[f] == FieldValue(u, f)
  {
    Omit(Users.Document(u), HIDDEN)
  }

  datatype ProfileError = Unauthorized | MissingName | PhoneInUse | MissingPicture | UserNotFound | Failed

  /** The id of the signed-in caller, when there is one. */
  function Caller(session: Option<Session>): Option<Id> {
    if session.Some? && session.value.user.Some? then Some(session.value.user.value.id) else None
  }

  /** GET /api/user/update: the caller's own account. */
  function GetProfile(session: Option<Session>, users: seq<User>): (r: Reply<UserDocument, ProfileError>)
    ensures Caller(session).None? ==> r == Err(UNAUTHORIZED, Unauthorized)
    ensures r.Ok? <==> Caller(session).Some? && FindById(users, Caller(session).value).Some?
    ensures r.Ok? ==> r.code == OK && r.body == View(users[FindById(users, Caller(session).value).value])
  {
    match Caller(session)
    case None => Err(UNAUTHORIZED, Unauthorized)
    case Some(id) =>
      match FindById(users, id)
      case None => Err(NOT_FOUND, UserNotFound)
      case Some(i) => Ok(OK, View(users[i]))
  }

  /** The JSON body of PUT /api/user/update. */
  datatype ProfileEdit = ProfileEdit(
    firstName: Option<string>,
    lastName: Option<string>,
    bio: Option<string>,
    contactNumber: Option<string>,
    themePreference: Option<string>,
    status: Option<string>)

  /** Keep the old value unless the new one is truthy. */
  function IfTruthy(edit: Option<string>, prior: string): string {
    if Truthy(edit) then edit.value else prior
  }

  /** Keep the old value unless the new one is present (even when empty). */
  function IfPresent(edit: Option<string>, prior: Option<string>): Option<string> {
    if edit.Some? then edit else prior
  }

  /** The update object applied to the account: names, theme and status
      only when truthy, bio and contact number whenever present. */
  function Merge(u: User, e: ProfileEdit): (v: User)
    ensures v.(firstName := u.firstName, lastName := u.lastName, bio := u.bio, contactNumber := u.contactNumber,
               themePreference := u.themePreference, status := u.status) == u
  {
    u.(firstName := IfTruthy(e.firstName, u.firstName),
       lastName := IfTruthy(e.lastName, u.lastName),
       bio := IfPresent(e.bio, u.bio),
       contactNumber := IfPresent(e.contactNumber, u.contactNumber),
       themePreference := IfTruthy(e.themePreference, u.themePreference),
       status := IfTruthy(e.status, u.status))
  }

  /** `User.findOne({ contactNumber, _id: { $ne: caller } })`. */
  predicate PhoneHeldByAnother(users: seq<User>, caller: Id, contact: string) {
    exists j :: 0 <= j < |users| && users[j].id != caller && users[j].contactNumber == Some(contact)
  }

  /** PUT /api/user/update. The update runs no schema validators; only the
      unique index on `contactNumber` can refuse the write (500). */
  function UpdateProfile(session: Option<Session>, users: seq<User>, e: ProfileEdit)
    : (h: Handled<UserDocument, ProfileError, seq<User>>)
    ensures h.reply.Err? ==> h.store == users
    ensures Caller(session).None? ==> h.reply == Err(UNAUTHORIZED, Unauthorized)
    ensures Caller(session).Some? && !(Truthy(e.firstName) && Truthy(e.lastName)) ==>
      h.reply == Err(BAD_REQUEST, MissingName)
    ensures h.reply.Ok? ==>
      && Caller(session).Some? && Truthy(e.firstName) && Truthy(e.lastName)
      && (Truthy(e.contactNumber) ==> !PhoneHeldByAnother(users, Caller(session).value, e.contactNumber.value))
      && var i := FindById(users, Caller(session).value);
      && i.Some?
      && h.store == users[i.value := Merge(users[i.value], e)]
      && h.reply == Ok(OK, View(Merge(users[i.value], e)))
    ensures (Caller(session).Some? && Truthy(e.firstName) && Truthy(e.lastName)
             && Truthy(e.contactNumber) && PhoneHeldByAnother(users, Caller(session).value, e.contactNumber.value)) ==>
      h.reply == Err(BAD_REQUEST, PhoneInUse)
    ensures (Caller(session).Some? && Truthy(e.firstName) && Truthy(e.lastName)
             && !(Truthy(e.contactNumber) && PhoneHeldByAnother(users, Caller(session).value, e.contactNumber.value))
             && FindById(users, Caller(session).value).None?) ==>
      h.reply == Err(NOT_FOUND, UserNotFound)
    ensures (Caller(session).Some? && Truthy(e.firstName) && Truthy(e.lastName)
             && !(Truthy(e.contactNumber) && PhoneHeldByAnother(users, Caller(session).value, e.contactNumber.value))
             && FindById(users, Caller(session).value).Some?) ==>
      var i := FindById(users, Caller(session).value).value;
      && (e.contactNumber.Some? && ContactHeldByOther(users, i, e.contactNumber.value) ==>
            h.reply == Err(SERVER_ERROR, Failed))
      && (!(e.contactNumber.Some? && ContactHeldByOther(users, i, e.contactNumber.value)) ==> h.reply.Ok?)
  {
    match Caller(session)
    case None => Handled(Err(UNAUTHORIZED, Unauthorized), users)
    case Some(id) =>
      if !Truthy(e.firstName) || !Truthy(e.lastName) then Handled(Err(BAD_REQUEST, MissingName), users)
      else if Truthy(e.contactNumber) && PhoneHeldByAnother(users, id, e.contactNumber.value) then
        Handled(Err(BAD_REQUEST, PhoneInUse), users)
      else
        match FindById(users, id)
        case None => Handled(Err(NOT_FOUND, UserNotFound), users)
        case Some(i) =>
          if e.contactNumber.Some? && ContactHeldByOther(users, i, e.contactNumber.value) then
            Handled(Err(SERVER_ERROR, Failed), users)
          else
            var v := Merge(users[i], e);
            Handled(Ok(OK, View(v)), users[i := v])
  }

  /** The caller's own number is not a conflict: resubmitting it succeeds
      (given valid names and a unique store). */
  lemma OwnPhoneIsNoConflict(session: Option<Session>, users: seq<User>, e: ProfileEdit)
    requires WellFormed(users)
    requires Caller(session).Some? && Truthy(e.firstName) && Truthy(e.lastName)
    requires FindById(users, Caller(session).value).Some?
    requires e.contactNumber.Some? && users[FindById(users, Caller(session).value).value].contactNumber == e.contactNumber
    ensures UpdateProfile(session, users, e).reply.Ok?
  {
    var id := Caller(session).value;
    var i := FindById(users, id).value;
    assert !PhoneHeldByAnother(users, id, e.contactNumber.value);
    assert !ContactHeldByOther(users, i, e.contactNumber.value);
  }

  /** A non-empty number held by another account is refused with 400. */
  lemma AnotherUsersPhoneIsRefused(session: Option<Session>, users: seq<User>, e: ProfileEdit, j: nat)
    requires Caller(session).Some? && Truthy(e.firstName) && Truthy(e.lastName) && Truthy(e.contactNumber)
    requires j < |users| && users[j].id != Caller(session).value && users[j].contactNumber == e.contactNumber
    ensures UpdateProfile(session, users, e).reply == Err(BAD_REQUEST, PhoneInUse)
  {
  }

  /** An empty contact number skips the uniqueness check but is written:
      the stored number becomes "" (unless another account already holds
      "", when the unique index refuses the write). */
  lemma EmptyPhoneIsWrittenUnchecked(session: Option<Session>, users: seq<User>, e: ProfileEdit)
    requires e.contactNumber == Some("")
    requires Caller(session).Some? && Truthy(e.firstName) && Truthy(e.lastName)
    requires FindById(users, Caller(session).value).Some?
    ensures var i := FindById(users, Caller(session).value).value;
      var h := UpdateProfile(session, users, e);
      && (ContactHeldByOther(users, i, "") ==> h.reply == Err(SERVER_ERROR, Failed))
      && (!ContactHeldByOther(users, i, "") ==> h.reply.Ok? && h.store[i].contactNumber == Some(""))
  {
  }

  /** PUT never touches the credential, role or verification fields, and
      leaves a field at its old value when the edit does not set it. */
  lemma UpdateKeepsOtherFields(session: Option<Session>, users: seq<User>, e: ProfileEdit)
    requires UpdateProfile(session, users, e).reply.Ok?
    ensures var i := FindById(users, Caller(session).value).value;
      var u := users[i];
      var v := UpdateProfile(session, users, e).store[i];
      && v.email == u.email && v.passwordHash == u.passwordHash && v.role == u.role
      && v.isEmailVerified == u.isEmailVerified && v.isPhoneVerified == u.isPhoneVerified
      && v.resetToken == u.resetToken && v.emailOtp == u.emailOtp && v.profilePicture == u.profilePicture
      && (e.bio.None? ==> v.bio == u.bio)
      && (e.contactNumber.None? ==> v.contactNumber == u.contactNumber)
      && (!Truthy(e.themePreference) ==> v.themePreference == u.themePreference)
      && (!Truthy(e.status) ==> v.status == u.status)
    ensures forall j :: 0 <= j < |users| && j != FindById(users, Caller(session).value).value ==>
      UpdateProfile(session, users, e).store[j] == users[j]
  {
  }

  /** The update runs no validators: a theme outside the schema's
      enumeration is stored as given. */
  lemma UpdateSkipsEnumValidation(session: Option<Session>, users: seq<User>, e: ProfileEdit)
    requires UpdateProfile(session, users, e).reply.Ok?
    requires e.themePreference == Some("blue")
    ensures var i := FindById(users, Caller(session).value).value;
      var v := UpdateProfile(session, users, e).store[i];
      v.themePreference == "blue" && !SchemaValid(v)
  {
  }

  /** PUT keeps the store free of duplicate ids, emails and contact numbers. */
  lemma UpdateKeepsStoreWellFormed(session: Option<Session>, users: seq<User>, e: ProfileEdit)
    requires WellFormed(users)
    ensures WellFormed(UpdateProfile(session, users, e).store)
  {
    var h := UpdateProfile(session, users, e);
    if h.reply.Ok? {
      var i := FindById(users, Caller(session).value).value;
      var v := Merge(users[i], e);
      var s := h.store;
      forall a, b | 0 <= a < |s| && 0 <= b < |s| && a != b
        ensures s[a].id != s[b].id && s[a].email != s[b].email
          && (s[a].contactNumber.Some? ==> s[a].contactNumber != s[b].contactNumber)
      {
        if a == i {
          assert s[b] == users[b];
          if v.contactNumber.Some? && e.contactNumber.None? {
            assert v.contactNumber == users[i].contactNumber;
          }
        } else if b == i {
          assert s[a] == users[a];
          if s[a].contactNumber.Some? && e.contactNumber.Some? {
            assert !ContactHeldByOther(users, i, e.contactNumber.value);
          }
        }
      }
    }
  }

  /** PATCH /api/user/update: replaces the picture and nothing else. */
  function UpdatePicture(session: Option<Session>, users: seq<User>, picture: Option<string>)
    : (h: Handled<UserDocument, ProfileError, seq<User>>)
    ensures h.reply.Err? ==> h.store == users
    ensures Caller(session).None? ==> h.reply == Err(UNAUTHORIZED, Unauthorized)
    ensures Caller(session).Some? && !Truthy(picture) ==> h.reply == Err(BAD_REQUEST, MissingPicture)
    ensures h.reply.Ok? ==>
      && Truthy(picture) && Caller(session).Some?
      && var i := FindById(users, Caller(session).value);
      && i.Some?
      && h.store == users[i.value := users[i.value].(profilePicture := picture)]
      && h.reply == Ok(OK, View(h.store[i.value]))
    ensures Caller(session).Some? && Truthy(picture) ==>
      (h.reply.Ok? <==> FindById(users, Caller(session).value).Some?)
    ensures Caller(session).Some? && Truthy(picture) && FindById(users, Caller(session).value).None? ==>
      h.reply == Err(NOT_FOUND, UserNotFound)
  {
    match Caller(session)
    case None => Handled(Err(UNAUTHORIZED, Unauthorized), users)
    case Some(id) =>
      if !Truthy(picture) then Handled(Err(BAD_REQUEST, MissingPicture), users)
      else
        match FindById(users, id)
        case None => Handled(Err(NOT_FOUND, UserNotFound), users)
        case Some(i) =>
          var v := users[i].(profilePicture := picture);
          Handled(Ok(OK, View(v)), users[i := v])
  }

  /** No profile reply ever carries the password digest, the reset token or
      its expiry, or a pending one-time code. */
  lemma RepliesHideCredentials(session: Option<Session>, users: seq<User>, e: ProfileEdit, picture: Option<string>)
    ensures GetProfile(session, users).Ok? ==> HIDDEN !! GetProfile(session, users).body.Keys
    ensures UpdateProfile(session, users, e).reply.Ok? ==> HIDDEN !! UpdateProfile(session, users, e).reply.body.Keys
    ensures UpdatePicture(session, users, picture).reply.Ok? ==>
      HIDDEN !! UpdatePicture(session, users, picture).reply.body.Keys
  {
  }
}
