/** The administrators' account management: promoting a new account
    straight to admin (src/app/api/admin/create-admin/route.ts) and the
    paginated, searchable user listing with its account creation
    (src/app/api/admin/users/route.ts). */
module Admin {
  import opened Common
  import opened Users
  import Listing
  import Middleware

  datatype AdminError = Forbidden | MissingFields | EmailInUse | PhoneInUse | Failed

  /** The create-admin gate `!session || session.user.role !== "admin"`:
      `None` lets the request through, otherwise the status to answer. A
      session without a user makes the property access throw (500). */
  function CreateAdminGate(session: Option<Session>): (r: Option<nat>)
    ensures r.None? <==> IsAdminSession(session)
    ensures r == Some(SERVER_ERROR) <==> session.Some? && session.value.user.None?
  {
    if session.None? then Some(FORBIDDEN)
    else if session.value.user.None? then Some(SERVER_ERROR)
    else if session.value.user.value.role != Some("admin") then Some(FORBIDDEN)
    else None
  }

  /** The JSON body of POST /api/admin/create-admin. */
  datatype AdminRequest = AdminRequest(
    firstName: Option<string>,
    lastName: Option<string>,
    email: Option<string>,
    password: Option<string>,
    contactNumber: Option<string>,
    bio: Option<string>)

  /** The `user` object of the create-admin reply. */
  datatype AdminSummary = AdminSummary(
    id: Id, firstName: string, lastName: string, email: string, role: Role, contactNumber: Option<string>)

  function Summary(u: User): AdminSummary {
    AdminSummary(u.id, u.firstName, u.lastName, u.email, u.role, u.contactNumber)
  }

  /** The account create-admin stores: role admin, e-mail verified, the
      phone verified exactly when a number was given. */
  function NewAdmin(req: AdminRequest, id: Id, digest: Digest, now: Time): (u: User)
    requires req.firstName.Some? && req.lastName.Some? && req.email.Some?
    ensures u.role == Admin && u.isEmailVerified && u.isPhoneVerified == Truthy(req.contactNumber)
    ensures u.id == id && u.passwordHash == digest && u.contactNumber == req.contactNumber && u.bio == req.bio
    ensures u.firstName == req.firstName.value && u.lastName == req.lastName.value && u.email == req.email.value
  {
    NewUser(id, req.firstName.value, req.lastName.value, req.email.value, digest, now)
      .(role := Admin, contactNumber := req.contactNumber, bio := req.bio,
        isEmailVerified := true, isPhoneVerified := Truthy(req.contactNumber))
  }

  /** POST /api/admin/create-admin. */
  function CreateAdmin(session: Option<Session>, users: seq<User>, req: AdminRequest, now: Time,
                       hash: string -> Digest)
    : (h: Handled<AdminSummary, AdminError, seq<User>>)
    ensures h.reply.Err? ==> h.store == users
    ensures CreateAdminGate(session).Some? ==> h.reply.Err? && h.reply.code == CreateAdminGate(session).value
    ensures (IsAdminSession(session) &&
             !(Truthy(req.firstName) && Truthy(req.lastName) && Truthy(req.email) && Truthy(req.password))) ==>
      h.reply == Err(BAD_REQUEST, MissingFields)
    ensures (IsAdminSession(session) && Truthy(req.firstName) && Truthy(req.lastName) && Truthy(req.password)
             && Truthy(req.email) && FindByEmail(users, req.email.value).Some?) ==>
      h.reply == Err(BAD_REQUEST, EmailInUse)
    ensures h.reply.Ok? ==>
      && IsAdminSession(session)
      && Truthy(req.firstName) && Truthy(req.lastName) && Truthy(req.email) && Truthy(req.password)
      && FindByEmail(users, req.email.value).None?
      && (Truthy(req.contactNumber) ==> FindByContact(users, req.contactNumber.value).None?)
      && var u := NewAdmin(req, FreshId(users, UserId), hash(req.password.value), now);
      && h.reply == Ok(CREATED, Summary(u))
      && h.store == users + [u]
    ensures (IsAdminSession(session) && Truthy(req.firstName) && Truthy(req.lastName) && Truthy(req.password)
             && Truthy(req.email) && FindByEmail(users, req.email.value).None?
             && Truthy(req.contactNumber) && FindByContact(users, req.contactNumber.value).Some?) ==>
      h.reply == Err(BAD_REQUEST, PhoneInUse)
    ensures (IsAdminSession(session) && Truthy(req.firstName) && Truthy(req.lastName) && Truthy(req.password)
             && Truthy(req.email) && FindByEmail(users, req.email.value).None?
             && !(Truthy(req.contactNumber) && FindByContact(users, req.contactNumber.value).Some?)) ==>
      var u := NewAdmin(req, FreshId(users, UserId), hash(req.password.value), now);
      && (h.reply.Ok? <==> Insert(users, u).Some?)
      && (h.reply.Err? ==> h.reply == Err(SERVER_ERROR, Failed))
  {
    match CreateAdminGate(session)
    case Some(code) => Handled(Err(code, if code == FORBIDDEN then Forbidden else Failed), users)
    case None =>
      if !Truthy(req.firstName) || !Truthy(req.lastName) || !Truthy(req.email) || !Truthy(req.password) then
        Handled(Err(BAD_REQUEST, MissingFields), users)
      else if FindByEmail(users, req.email.value).Some? then Handled(Err(BAD_REQUEST, EmailInUse), users)
      else if Truthy(req.contactNumber) && FindByContact(users, req.contactNumber.value).Some? then
        Handled(Err(BAD_REQUEST, PhoneInUse), users)
      else
        var u := NewAdmin(req, FreshId(users, UserId), hash(req.password.value), now);
        match Insert(users, u)
        case None => Handled(Err(SERVER_ERROR, Failed), users)
        case Some(users') => Handled(Ok(CREATED, Summary(u)), users')
  }

  /** An account promoted by create-admin, once signed in, carries the role
      the middleware admits to the admin area. */
  lemma CreatedAdminEntersAdminArea(session: Option<Session>, users: seq<User>, req: AdminRequest, now: Time,
                                    hash: string -> Digest, path: string)
    requires CreateAdmin(session, users, req, now, hash).reply.Ok?
    requires Middleware.StartsWith(path, "/admin")
    ensures var u := CreateAdmin(session, users, req, now, hash).store[|users|];
      Middleware.Decide(Some(Middleware.Token(Some(RoleName(u.role)))), path) == Middleware.Continue
  {
    var u := CreateAdmin(session, users, req, now, hash).store[|users|];
    Middleware.AdminAreaNeedsAdminRole(Middleware.Token(Some(RoleName(u.role))), path);
  }

  /** create-admin keeps the store free of duplicate ids, emails and numbers. */
  lemma CreateAdminKeepsStoreWellFormed(session: Option<Session>, users: seq<User>, req: AdminRequest,
                                        now: Time, hash: string -> Digest)
    requires WellFormed(users)
    ensures WellFormed(CreateAdmin(session, users, req, now, hash).store)
  {
  }

  /** An empty contact number skips the duplicate check (it is falsy) but
      is still stored, and the unique index then refuses a second account
      with an empty number: the route answers 500 instead of 400. */
  lemma EmptyPhoneSkipsDuplicateCheck(session: Option<Session>, users: seq<User>, req: AdminRequest,
                                      now: Time, hash: string -> Digest, j: nat)
    requires IsAdminSession(session)
    requires Truthy(req.firstName) && Truthy(req.lastName) && Truthy(req.email) && Truthy(req.password)
    requires FindByEmail(users, req.email.value).None?
    requires req.contactNumber == Some("")
    requires j < |users| && users[j].contactNumber == Some("")
    ensures CreateAdmin(session, users, req, now, hash).reply == Err(SERVER_ERROR, Failed)
  {
    assert ContactHeldByOther(users, |users|, "");
  }

  /** The fields GET and POST /api/admin/users strip from a returned
      account. The reset token's expiry and the code expiries stay. */
  const LIST_HIDDEN: set<Field> := {PasswordHash, PhoneOtp, EmailOtp, ResetToken}

  /** An account as the admin user routes return it. */
  function ListView(u: User): (d: UserDocument)
    ensures forall f :: f in d <==> f !in LIST_HIDDEN && Present(u, f)
    ensures forall f :: f in d ==> d[f] == FieldValue(u, f)
  {
    Omit(Users.Document(u), LIST_HIDDEN)
  }

  /** The query string of GET /api/admin/users. `page` and `limit` are
      `None` when the parameter is absent or empty, otherwise its
      `parseInt`; `search` and `role` are "" when absent. */
  datatype UserQuery = UserQuery(page: Option<int>, limit: Option<int>, search: string, role: string)

  const DEFAULT_PAGE: int := 1
  const DEFAULT_LIMIT: int := 10

  /** The filter the route builds. `regex(pattern, text)` is the database's
      case-insensitive regular-expression match, a parameter of the model. */
  predicate Selected(q: UserQuery, regex: (string, string) -> bool, u: User) {
    && (q.search != "" ==>
          regex(q.search, u.firstName) || regex(q.search, u.lastName) || regex(q.search, u.email))
    && (ParseRole(q.role).Some? ==> u.role == ParseRole(q.role).value)
  }

  /** The body of a successful listing. */
  datatype UserPage = UserPage(users: seq<UserDocument>, total: nat, page: int, limit: int, pages: Option<int>)

  /** The selected accounts, newest first. */
  function Found(users: seq<User>, q: UserQuery, regex: (string, string) -> bool): (r: seq<User>)
    ensures forall u :: u in r <==> u in users && Selected(q, regex, u)
    ensures |r| == Listing.Count(users, u => Selected(q, regex, u))
  {
    Listing.NewestFirst(users, u => Selected(q, regex, u))
  }

  /** The listing projection applied to each account of a page, in order. */
  function Views(p: seq<User>): (r: seq<UserDocument>)
    ensures |r| == |p|
    ensures forall i :: 0 <= i < |p| ==> r[i] == ListView(p[i])
  {
    seq(|p|, i requires 0 <= i < |p| => ListView(p[i]))
  }

  /** GET /api/admin/users. */
  function ListUsers(session: Option<Session>, users: seq<User>, q: UserQuery, regex: (string, string) -> bool)
    : (r: Reply<UserPage, AdminError>)
    ensures !IsAdminSession(session) ==> r == Err(FORBIDDEN, Forbidden)
    ensures r.Err? && IsAdminSession(session) ==>
      r.code == SERVER_ERROR && (q.page.GetOr(DEFAULT_PAGE) - 1) * q.limit.GetOr(DEFAULT_LIMIT) < 0
    ensures r.Ok? ==>
      var page := q.page.GetOr(DEFAULT_PAGE);
      var limit := q.limit.GetOr(DEFAULT_LIMIT);
      var found := Found(users, q, regex);
      && IsAdminSession(session) && (page - 1) * limit >= 0
      && r.code == OK && r.body.page == page && r.body.limit == limit
      && r.body.total == |found|
      && r.body.pages == Listing.PageCount(|found|, limit)
      && |r.body.users| <= |found|
      && forall i :: 0 <= i < |r.body.users| ==>
           (page - 1) * limit + i < |found| && r.body.users[i] == ListView(found[(page - 1) * limit + i])
    ensures r.Ok? ==>
      var page := q.page.GetOr(DEFAULT_PAGE);
      var limit := q.limit.GetOr(DEFAULT_LIMIT);
      var p := Listing.Page(Found(users, q, regex), page, limit);
      && p.Some? && r.body.users == Views(p.value)
      && (limit > 0 ==> |r.body.users| <= limit)
  {
    if !IsAdminSession(session) then Err(FORBIDDEN, Forbidden)
    else
      var page := q.page.GetOr(DEFAULT_PAGE);
      var limit := q.limit.GetOr(DEFAULT_LIMIT);
      var found := Found(users, q, regex);
      match Listing.Page(found, page, limit)
      case None => Err(SERVER_ERROR, Failed)
      case Some(p) =>
        Ok(OK, UserPage(Views(p), |found|, page, limit, Listing.PageCount(|found|, limit)))
  }

  /** A role parameter outside the enumeration is ignored rather than
      refused: the listing is the same as with no role at all. */
  lemma UnknownRoleIsIgnored(session: Option<Session>, users: seq<User>, q: UserQuery,
                             regex: (string, string) -> bool)
    requires ParseRole(q.role).None?
    ensures ListUsers(session, users, q, regex) == ListUsers(session, users, q.(role := ""), regex)
  {
    var q' := q.(role := "");
    Listing.FilterCongruent(users, u => Selected(q, regex, u), u => Selected(q', regex, u));
    assert Found(users, q, regex) == Found(users, q', regex);
  }

  /** A known role parameter lists only accounts with that role. */
  lemma RoleFilterSelectsRole(session: Option<Session>, users: seq<User>, q: UserQuery,
                              regex: (string, string) -> bool, r: Role)
    requires q.role == RoleName(r)
    ensures forall u :: u in Found(users, q, regex) ==> u.role == r
  {
    ParseRoleName(r);
  }

  /** The listing keeps the reset token's expiry and the code expiries that
      the profile route hides. */
  lemma ListingShowsResetExpiry(u: User)
    requires u.resetTokenExpiry.Some?
    ensures ResetTokenExpiry in ListView(u) && ListView(u)[ResetTokenExpiry] == Date(u.resetTokenExpiry.value)
    ensures PasswordHash !in ListView(u) && ResetToken !in ListView(u)
  {
    assert Present(u, ResetTokenExpiry) && ResetTokenExpiry !in LIST_HIDDEN;
    assert FieldValue(u, ResetTokenExpiry) == Date(u.resetTokenExpiry.value);
  }

  /** The JSON body of POST /api/admin/users: the account fields it spreads
      into the new document, including the one-time codes, the reset token,
      their expiries and the phone flag, which the route does not strip. */
  datatype UserBody = UserBody(
    firstName: Option<string>,
    lastName: Option<string>,
    email: Option<string>,
    role: Option<string>,
    password: Option<string>,
    bio: Option<string>,
    profilePicture: Option<string>,
    contactNumber: Option<string>,
    themePreference: Option<string>,
    status: Option<string>,
    phoneOtp: Option<string>,
    phoneOtpExpiresAt: Option<Time>,
    isPhoneVerified: Option<bool>,
    emailOtp: Option<string>,
    emailOtpExpiresAt: Option<Time>,
    resetToken: Option<string>,
    resetTokenExpiry: Option<Time>)

  /** `new User({ ...body, passwordHash, isEmailVerified: true })`, or `None`
      when the role is outside the enumeration (the save fails). Absent theme
      and status take the schema defaults and an absent phone flag is false;
      every other field the body carries is stored as sent. */
  function AccountFromBody(b: UserBody, id: Id, digest: Digest, now: Time): (r: Option<User>)
    requires Truthy(b.firstName) && Truthy(b.lastName) && Truthy(b.email) && Truthy(b.role)
    ensures r.Some? <==> ParseRole(b.role.value).Some?
    ensures r.Some? ==> var u := r.value;
      && u.id == id && u.passwordHash == digest && u.createdAt == now
      && Some(RoleName(u.role)) == b.role
      && u.isEmailVerified && u.isPhoneVerified == b.isPhoneVerified.GetOr(false)
      && Some(u.firstName) == b.firstName && Some(u.lastName) == b.lastName && Some(u.email) == b.email
      && u.bio == b.bio && u.profilePicture == b.profilePicture && u.contactNumber == b.contactNumber
      && u.themePreference == b.themePreference.GetOr(DEFAULT_THEME)
      && u.status == b.status.GetOr(DEFAULT_PRESENCE)
      && u.phoneOtp == b.phoneOtp && u.phoneOtpExpiresAt == b.phoneOtpExpiresAt
      && u.emailOtp == b.emailOtp && u.emailOtpExpiresAt == b.emailOtpExpiresAt
      && u.resetToken == b.resetToken && u.resetTokenExpiry == b.resetTokenExpiry
  {
    match ParseRole(b.role.value)
    case None => None
    case Some(role) =>
      Some(User(id, b.firstName.value, b.lastName.value, b.email.value, digest, b.bio, role, b.profilePicture,
                b.contactNumber, b.themePreference.GetOr(DEFAULT_THEME), b.status.GetOr(DEFAULT_PRESENCE),
                b.phoneOtp, b.phoneOtpExpiresAt, b.isPhoneVerified.GetOr(false), b.emailOtp, b.emailOtpExpiresAt,
                true, b.resetToken, b.resetTokenExpiry, now))
  }

  /** POST /api/admin/users. */
  function CreateUser(session: Option<Session>, users: seq<User>, b: UserBody, now: Time, hash: string -> Digest)
    : (h: Handled<UserDocument, AdminError, seq<User>>)
    ensures h.reply.Err? ==> h.store == users
    ensures !IsAdminSession(session) ==> h.reply == Err(FORBIDDEN, Forbidden)
    ensures (IsAdminSession(session) &&
             !(Truthy(b.firstName) && Truthy(b.lastName) && Truthy(b.email) && Truthy(b.role) && Truthy(b.password))) ==>
      h.reply == Err(BAD_REQUEST, MissingFields)
    ensures (IsAdminSession(session) && Truthy(b.firstName) && Truthy(b.lastName) && Truthy(b.email)
             && Truthy(b.role) && Truthy(b.password) && FindByEmail(users, b.email.value).Some?) ==>
      h.reply == Err(CONFLICT, EmailInUse)
    ensures h.reply.Ok? ==>
      && IsAdminSession(session)
      && Truthy(b.firstName) && Truthy(b.lastName) && Truthy(b.email) && Truthy(b.role) && Truthy(b.password)
      && var u := AccountFromBody(b, FreshId(users, UserId), hash(b.password.value), now);
      && u.Some? && SchemaValid(u.value)
      && h.store == users + [u.value]
      && h.reply == Ok(CREATED, ListView(u.value))
    ensures (IsAdminSession(session) && Truthy(b.firstName) && Truthy(b.lastName) && Truthy(b.email)
             && Truthy(b.role) && Truthy(b.password) && FindByEmail(users, b.email.value).None?) ==>
      var u := AccountFromBody(b, FreshId(users, UserId), hash(b.password.value), now);
      && (h.reply.Ok? <==> u.Some? && Insert(users, u.value).Some?)
      && (h.reply.Err? ==> h.reply == Err(SERVER_ERROR, Failed))
  {
    if !IsAdminSession(session) then Handled(Err(FORBIDDEN, Forbidden), users)
    else if !(Truthy(b.firstName) && Truthy(b.lastName) && Truthy(b.email) && Truthy(b.role) && Truthy(b.password))
    then Handled(Err(BAD_REQUEST, MissingFields), users)
    else if FindByEmail(users, b.email.value).Some? then Handled(Err(CONFLICT, EmailInUse), users)
    else
      match AccountFromBody(b, FreshId(users, UserId), hash(b.password.value), now)
      case None => Handled(Err(SERVER_ERROR, Failed), users)
      case Some(u) =>
        match Insert(users, u)
        case None => Handled(Err(SERVER_ERROR, Failed), users)
        case Some(users') => Handled(Ok(CREATED, ListView(u)), users')
  }

  /** The two admin creation routes answer a taken e-mail differently:
      create-admin with 400, the user route with 409. */
  lemma DuplicateEmailStatusesDiffer(session: Option<Session>, users: seq<User>, req: AdminRequest, b: UserBody,
                                     now: Time, hash: string -> Digest, j: nat)
    requires IsAdminSession(session)
    requires Truthy(req.firstName) && Truthy(req.lastName) && Truthy(req.email) && Truthy(req.password)
    requires Truthy(b.firstName) && Truthy(b.lastName) && Truthy(b.role) && Truthy(b.password)
    requires b.email == req.email
    requires j < |users| && Some(users[j].email) == req.email
    ensures CreateAdmin(session, users, req, now, hash).reply.code == BAD_REQUEST
    ensures CreateUser(session, users, b, now, hash).reply.code == CONFLICT
  {
    assert FindByEmail(users, req.email.value).Some?;
  }

  /** An unknown role or theme in the body passes the route's checks and is
      refused by the schema on save (500), leaving the store unchanged. */
  lemma InvalidEnumIsServerError(session: Option<Session>, users: seq<User>, b: UserBody, now: Time,
                                 hash: string -> Digest)
    requires IsAdminSession(session)
    requires Truthy(b.firstName) && Truthy(b.lastName) && Truthy(b.email) && Truthy(b.role) && Truthy(b.password)
    requires FindByEmail(users, b.email.value).None?
    requires ParseRole(b.role.value).None? || b.themePreference == Some("blue")
    ensures CreateUser(session, users, b, now, hash) == Handled(Err(SERVER_ERROR, Failed), users)
  {
  }

  /** The user route keeps the store free of duplicate ids, emails and numbers. */
  lemma CreateUserKeepsStoreWellFormed(session: Option<Session>, users: seq<User>, b: UserBody, now: Time,
                                       hash: string -> Digest)
    requires WellFormed(users)
    ensures WellFormed(CreateUser(session, users, b, now, hash).store)
  {
  }

  /** One-time codes and a reset token sent in the body are stored on the new
      account as sent; the reply leaves the codes and the token out. */
  lemma ClientCodesAreStoredButHidden(session: Option<Session>, users: seq<User>, b: UserBody, now: Time,
                                      hash: string -> Digest)
    requires CreateUser(session, users, b, now, hash).reply.Ok?
    ensures var h := CreateUser(session, users, b, now, hash);
      var u := h.store[|users|];
      && u.phoneOtp == b.phoneOtp && u.emailOtp == b.emailOtp && u.resetToken == b.resetToken
      && u.resetTokenExpiry == b.resetTokenExpiry
      && PhoneOtp !in h.reply.body && EmailOtp !in h.reply.body && ResetToken !in h.reply.body
  {
  }

  /** An account the user route creates heads the unfiltered first page of
      the listing. */
  lemma CreatedUserHeadsListing(session: Option<Session>, users: seq<User>, b: UserBody, now: Time,
                                hash: string -> Digest, regex: (string, string) -> bool)
    requires CreateUser(session, users, b, now, hash).reply.Ok?
    ensures var store := CreateUser(session, users, b, now, hash).store;
      var r := ListUsers(session, store, UserQuery(None, None, "", ""), regex);
      && r.Ok? && r.body.total == |store| && |r.body.users| >= 1
      && r.body.users[0] == CreateUser(session, users, b, now, hash).reply.body
  {
    var store := CreateUser(session, users, b, now, hash).store;
    var q := UserQuery(None, None, "", "");
    var keep := u => Selected(q, regex, u);
    Listing.FilterAll(store, keep);
    Listing.FilterLength(store, keep);
    var found := Found(users + [store[|users|]], q, regex);
    assert found == Listing.Reverse(store);
    assert found[0] == store[|store| - 1];
  }
}
