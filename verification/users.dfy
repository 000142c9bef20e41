/** Accounts (src/models/User.ts): the user record, its schema validators,
    its defaults, the unique indexes on `email` and `contactNumber`, and the
    JSON document a user serialises to. */
module Users {
  import opened Common

  /** The `role` enumeration ("user", "admin", "rider"). */
  datatype Role = Customer | Admin | Rider

  function RoleName(r: Role): string {
    match r
    case Customer => "user"
    case Admin => "admin"
    case Rider => "rider"
  }

  /** The enumeration check on `role`, also the admin listing's role filter
      (`["user", "admin", "rider"].includes(role)`). */
  function ParseRole(s: string): (r: Option<Role>)
    ensures r.Some? ==> RoleName(r.value) == s
    ensures r.None? ==> forall x: Role :: RoleName(x) != s
  {
    if s == "user" then Some(Customer)
    else if s == "admin" then Some(Admin)
    else if s == "rider" then Some(Rider)
    else None
  }

  lemma ParseRoleName(r: Role)
    ensures ParseRole(RoleName(r)) == Some(r)
  {
  }

  const THEMES: set<string> := {"light", "dark"}
  const PRESENCES: set<string> := {"Online", "Away", "Busy"}
  const DEFAULT_THEME: string := "light"
  const DEFAULT_PRESENCE: string := "Online"

  /** A stored account. `themePreference` and `status` are kept as strings:
      the schema enumerates them, but a `findByIdAndUpdate` runs no
      validators and can store any string. */
  datatype User = User(
    id: Id,
    firstName: string,
    lastName: string,
    email: string,
    passwordHash: Digest,
    bio: Option<string>,
    role: Role,
    profilePicture: Option<string>,
    contactNumber: Option<string>,
    themePreference: string,
    status: string,
    phoneOtp: Option<string>,
    phoneOtpExpiresAt: Option<Time>,
    isPhoneVerified: bool,
    emailOtp: Option<string>,
    emailOtpExpiresAt: Option<Time>,
    isEmailVerified: bool,
    resetToken: Option<string>,
    resetTokenExpiry: Option<Time>,
    createdAt: Time)

  /** The validators `save()` runs on the whole document: required strings
      are non-empty and the enumerations hold. */
  predicate SchemaValid(u: User) {
    && u.firstName != "" && u.lastName != "" && u.email != ""
    && u.themePreference in THEMES && u.status in PRESENCES
  }

  /** A new account carrying the schema defaults: role "user", light theme,
      "Online", nothing verified, no codes pending. */
  function NewUser(id: Id, firstName: string, lastName: string, email: string, passwordHash: Digest, now: Time)
    : (u: User)
    ensures u.role == Customer && u.themePreference == DEFAULT_THEME && u.status == DEFAULT_PRESENCE
    ensures !u.isPhoneVerified && !u.isEmailVerified
    ensures u.emailOtp.None? && u.phoneOtp.None? && u.resetToken.None? && u.resetTokenExpiry.None?
    ensures firstName != "" && lastName != "" && email != "" ==> SchemaValid(u)
  {
    User(id, firstName, lastName, email, passwordHash, None, Customer, None, None,
         DEFAULT_THEME, DEFAULT_PRESENCE, None, None, false, None, None, false, None, None, now)
  }

  /** No two accounts share an id, an email, or a present contact number. */
  predicate WellFormed(users: seq<User>) {
    forall i, j :: 0 <= i < |users| && 0 <= j < |users| && i != j ==>
      && users[i].id != users[j].id
      && users[i].email != users[j].email
      && (users[i].contactNumber.Some? ==> users[i].contactNumber != users[j].contactNumber)
  }

  /** `User.findById(id)`. */
  function FindById(users: seq<User>, id: Id): Option<nat> {
    FindFirst(users, (u: User) => u.id == id)
  }

  /** `User.findOne({ email })`. */
  function FindByEmail(users: seq<User>, email: string): Option<nat> {
    FindFirst(users, (u: User) => u.email == email)
  }

  /** `User.findOne({ contactNumber })`. */
  function FindByContact(users: seq<User>, contact: string): Option<nat> {
    FindFirst(users, (u: User) => u.contactNumber == Some(contact))
  }

  /** Whether an account other than the one at position `at` holds `contact`. */
  predicate ContactHeldByOther(users: seq<User>, at: nat, contact: string) {
    exists j :: 0 <= j < |users| && j != at && users[j].contactNumber == Some(contact)
  }

  /** The identifier of a stored user. */
  function UserId(x: User): Id {
    x.id
  }

  /** `save()` of a new account: the schema validators, then the unique
      indexes; `None` is the error the route turns into a 500. */
  function Insert(users: seq<User>, u: User): (r: Option<seq<User>>)
    ensures r.Some? <==>
      SchemaValid(u) && FindByEmail(users, u.email).None?
      && (u.contactNumber.Some? ==> !ContactHeldByOther(users, |users|, u.contactNumber.value))
    ensures r.Some? ==> r.value == users + [u]
    ensures r.Some? && WellFormed(users) && u.id == FreshId(users, UserId) ==> WellFormed(r.value)
  {
    if SchemaValid(u) && FindByEmail(users, u.email).None?
       && (u.contactNumber.Some? ==> !ContactHeldByOther(users, |users|, u.contactNumber.value))
    then Some(users + [u])
    else None
  }

  /** `save()` of an existing account whose unique fields did not change:
      only the schema validators can refuse it. */
  function SaveExisting(users: seq<User>, at: nat, u: User): (r: Option<seq<User>>)
    requires at < |users|
    ensures r.Some? <==> SchemaValid(u)
    ensures r.Some? ==> r.value == users[at := u]
    ensures r.Some? && WellFormed(users) ==>
      (u.id == users[at].id && u.email == users[at].email && u.contactNumber == users[at].contactNumber
       ==> WellFormed(r.value))
  {
    if SchemaValid(u) then Some(users[at := u]) else None
  }

  /** The field names of an account document. */
  datatype Field =
    | IdField | FirstName | LastName | Email | PasswordHash | Bio | RoleField | ProfilePicture
    | ContactNumber | ThemePreference | StatusField | PhoneOtp | PhoneOtpExpiresAt | IsPhoneVerified
    | EmailOtp | EmailOtpExpiresAt | IsEmailVerified | ResetToken | ResetTokenExpiry | CreatedAt

  /** The name a field has in the JSON reply. */
  function FieldName(f: Field): string {
    match f
    case IdField => "_id"
    case FirstName => "firstName"
    case LastName => "lastName"
    case Email => "email"
    case PasswordHash => "passwordHash"
    case Bio => "bio"
    case RoleField => "role"
    case ProfilePicture => "profilePicture"
    case ContactNumber => "contactNumber"
    case ThemePreference => "themePreference"
    case StatusField => "status"
    case PhoneOtp => "phoneOtp"
    case PhoneOtpExpiresAt => "phoneOtpExpiresAt"
    case IsPhoneVerified => "isPhoneVerified"
    case EmailOtp => "emailOtp"
    case EmailOtpExpiresAt => "emailOtpExpiresAt"
    case IsEmailVerified => "isEmailVerified"
    case ResetToken => "resetToken"
    case ResetTokenExpiry => "resetTokenExpiry"
    case CreatedAt => "createdAt"
  }

  type UserDocument = Common.Document<Field>

  const ALL_FIELDS: set<Field> := {
    IdField, FirstName, LastName, Email, PasswordHash, Bio, RoleField, ProfilePicture,
    ContactNumber, ThemePreference, StatusField, PhoneOtp, PhoneOtpExpiresAt, IsPhoneVerified,
    EmailOtp, EmailOtpExpiresAt, IsEmailVerified, ResetToken, ResetTokenExpiry, CreatedAt}

  /** Whether the account has a value for the field (optional fields may be
      `undefined`, and are then left out of the JSON). */
  predicate Present(u: User, f: Field) {
    match f
    case Bio => u.bio.Some?
    case ProfilePicture => u.profilePicture.Some?
    case ContactNumber => u.contactNumber.Some?
    case PhoneOtp => u.phoneOtp.Some?
    case PhoneOtpExpiresAt => u.phoneOtpExpiresAt.Some?
    case EmailOtp => u.emailOtp.Some?
    case EmailOtpExpiresAt => u.emailOtpExpiresAt.Some?
    case ResetToken => u.resetToken.Some?
    case ResetTokenExpiry => u.resetTokenExpiry.Some?
    case _ => true
  }

  /** The JSON value of a present field. */
  function FieldValue(u: User, f: Field): Value
    requires Present(u, f)
  {
    match f
    case IdField => Ref(u.id)
    case FirstName => Text(u.firstName)
    case LastName => Text(u.lastName)
    case Email => Text(u.email)
    case PasswordHash => Text(u.passwordHash.text)
    case Bio => Text(u.bio.value)
    case RoleField => Text(RoleName(u.role))
    case ProfilePicture => Text(u.profilePicture.value)
    case ContactNumber => Text(u.contactNumber.value)
    case ThemePreference => Text(u.themePreference)
    case StatusField => Text(u.status)
    case PhoneOtp => Text(u.phoneOtp.value)
    case PhoneOtpExpiresAt => Date(u.phoneOtpExpiresAt.value)
    case IsPhoneVerified => Flag(u.isPhoneVerified)
    case EmailOtp => Text(u.emailOtp.value)
    case EmailOtpExpiresAt => Date(u.emailOtpExpiresAt.value)
    case IsEmailVerified => Flag(u.isEmailVerified)
    case ResetToken => Text(u.resetToken.value)
    case ResetTokenExpiry => Date(u.resetTokenExpiry.value)
    case CreatedAt => Date(u.createdAt)
  }

  /** The account as a JSON document: every present field under its schema name. */
  function Document(u: User): (d: UserDocument)
    ensures forall f :: f in d <==> Present(u, f)
    ensures forall f :: f in d ==> d[f] == FieldValue(u, f)
  {
    map f | f in ALL_FIELDS && Present(u, f) :: FieldValue(u, f)
  }
}
