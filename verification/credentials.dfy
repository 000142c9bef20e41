/** The two single-use credentials: the e-mail verification code
    (src/app/api/verify-code/route.ts) and the password-reset token
    (src/app/api/reset-password/route.ts). Each is compared with its
    expiry against the clock — the code is rejected when its expiry is
    strictly before now, the token is accepted only when its expiry is
    strictly after now — and cleared when used. */
module Credentials {
  import opened Common
  import opened Users

  datatype CredentialError = UserNotFound | InvalidOrExpired | Failed

  /** The stored code expired: `emailOtpExpiresAt && emailOtpExpiresAt < now`.
      With no stored expiry the code never expires. */
  predicate CodeExpired(u: User, now: Time) {
    u.emailOtpExpiresAt.Some? && u.emailOtpExpiresAt.value < now
  }

  /** Whether the submitted code is accepted for the account. The comparison
      is JavaScript's `!==` on possibly-undefined values, so an absent code
      matches an account with no stored code. */
  predicate CodeAccepted(u: User, code: Option<string>, now: Time) {
    u.emailOtp == code && !CodeExpired(u, now)
  }

  /** The account after a successful verification. */
  function Verified(u: User): (v: User)
    ensures v.isEmailVerified && v.emailOtp.None? && v.emailOtpExpiresAt.None?
    ensures v.(isEmailVerified := u.isEmailVerified, emailOtp := u.emailOtp,
               emailOtpExpiresAt := u.emailOtpExpiresAt) == u
  {
    u.(isEmailVerified := true, emailOtp := None, emailOtpExpiresAt := None)
  }

  /** POST /api/verify-code. */
  function VerifyCode(users: seq<User>, userId: Id, code: Option<string>, now: Time)
    : (h: Handled<(), CredentialError, seq<User>>)
    ensures h.reply.Err? ==> h.store == users
    ensures FindById(users, userId).None? <==> h.reply == Err(NOT_FOUND, UserNotFound)
    ensures h.reply.Ok? <==>
      FindById(users, userId).Some? && CodeAccepted(users[FindById(users, userId).value], code, now)
      && SchemaValid(users[FindById(users, userId).value])
    ensures h.reply.Ok? ==>
      (var i := FindById(users, userId).value; h.reply.code == OK && h.store == users[i := Verified(users[i])])
    ensures FindById(users, userId).Some? && !CodeAccepted(users[FindById(users, userId).value], code, now) ==>
      h.reply == Err(BAD_REQUEST, InvalidOrExpired)
  {
    match FindById(users, userId)
    case None => Handled(Err(NOT_FOUND, UserNotFound), users)
    case Some(i) =>
      var u := users[i];
      if u.emailOtp != code || CodeExpired(u, now) then Handled(Err(BAD_REQUEST, InvalidOrExpired), users)
      else
        match SaveExisting(users, i, Verified(u))
        case None => Handled(Err(SERVER_ERROR, Failed), users)
        case Some(users') => Handled(Ok(OK, ()), users')
  }

  /** The expiry boundary of the code: an expiry equal to now is still
      accepted, one strictly before now is not, and without a stored expiry
      only the code comparison matters. */
  lemma CodeExpiryBoundary(u: User, code: Option<string>, now: Time)
    requires u.emailOtp == code
    ensures u.emailOtpExpiresAt == Some(now) ==> CodeAccepted(u, code, now)
    ensures u.emailOtpExpiresAt.Some? && u.emailOtpExpiresAt.value < now ==> !CodeAccepted(u, code, now)
    ensures u.emailOtpExpiresAt.None? ==> forall t: Time :: CodeAccepted(u, code, t)
  {
  }

  /** A verified code cannot be replayed: it was cleared, so the same code
      is refused on any later attempt. */
  lemma CodeIsSingleUse(users: seq<User>, userId: Id, c: string, now: Time, later: Time)
    requires VerifyCode(users, userId, Some(c), now).reply.Ok?
    ensures VerifyCode(VerifyCode(users, userId, Some(c), now).store, userId, Some(c), later).reply
      == Err(BAD_REQUEST, InvalidOrExpired)
  {
    var i := FindById(users, userId).value;
    var users' := VerifyCode(users, userId, Some(c), now).store;
    assert users'[i] == Verified(users[i]);
    assert FindById(users', userId) == Some(i) by {
      assert forall j :: 0 <= j < |users'| && j != i ==> users'[j] == users[j];
    }
  }

  /** The cleared state accepts a request that carries no code at all
      (`undefined !== undefined` is false), so an already verified account
      can be "verified" again without a code. */
  lemma MissingCodeMatchesClearedCode(users: seq<User>, userId: Id, now: Time)
    requires FindById(users, userId).Some?
    requires var u := users[FindById(users, userId).value];
      u.emailOtp.None? && u.emailOtpExpiresAt.None? && SchemaValid(u)
    ensures VerifyCode(users, userId, None, now).reply.Ok?
  {
  }

  /** The `resetToken: token` part of the filter. A body without a token
      leaves the key `undefined`, and Mongoose drops an undefined key from a
      filter, so an absent token constrains nothing. */
  predicate TokenMatches(u: User, token: Option<string>) {
    token.None? || u.resetToken == token
  }

  /** A reset is pending on the account: `resetTokenExpiry > now`, so an
      expiry equal to now is rejected. */
  predicate ResetPending(u: User, now: Time) {
    u.resetTokenExpiry.Some? && u.resetTokenExpiry.value > now
  }

  /** The account passes the route's filter. */
  predicate TokenValid(u: User, token: Option<string>, now: Time) {
    TokenMatches(u, token) && ResetPending(u, now)
  }

  /** `User.findOne({ resetToken: token, resetTokenExpiry: { $gt: now } })`. */
  function FindByResetToken(users: seq<User>, token: Option<string>, now: Time): Option<nat> {
    FindFirst(users, (u: User) => TokenValid(u, token, now))
  }

  /** The account after its password was reset. */
  function PasswordReplaced(u: User, digest: Digest): (v: User)
    ensures v.passwordHash == digest && v.resetToken.None? && v.resetTokenExpiry.None?
    ensures v.(passwordHash := u.passwordHash, resetToken := u.resetToken, resetTokenExpiry := u.resetTokenExpiry) == u
  {
    u.(passwordHash := digest, resetToken := None, resetTokenExpiry := None)
  }

  /** POST /api/reset-password. An absent new password makes the hasher
      throw (500) after the token was found. */
  function ResetPassword(users: seq<User>, token: Option<string>, password: Option<string>, now: Time,
                         hash: string -> Digest)
    : (h: Handled<(), CredentialError, seq<User>>)
    ensures h.reply.Err? ==> h.store == users
    ensures FindByResetToken(users, token, now).None? <==> h.reply == Err(BAD_REQUEST, InvalidOrExpired)
    ensures h.reply.Ok? <==>
      FindByResetToken(users, token, now).Some? && password.Some?
      && SchemaValid(users[FindByResetToken(users, token, now).value])
    ensures h.reply.Ok? ==>
      (var i := FindByResetToken(users, token, now).value;
       h.reply.code == OK && h.store == users[i := PasswordReplaced(users[i], hash(password.value))])
  {
    match FindByResetToken(users, token, now)
    case None => Handled(Err(BAD_REQUEST, InvalidOrExpired), users)
    case Some(i) =>
      if password.None? then Handled(Err(SERVER_ERROR, Failed), users)
      else
        match SaveExisting(users, i, PasswordReplaced(users[i], hash(password.value)))
        case None => Handled(Err(SERVER_ERROR, Failed), users)
        case Some(users') => Handled(Ok(OK, ()), users')
  }

  /** A reset succeeds only when some account holds the token with an expiry
      strictly after now; an expiry equal to now is refused. */
  lemma ResetNeedsUnexpiredToken(users: seq<User>, token: Option<string>, password: Option<string>, now: Time,
                                 hash: string -> Digest)
    ensures ResetPassword(users, token, password, now, hash).reply.Ok? ==>
      exists i :: 0 <= i < |users| && TokenMatches(users[i], token)
        && users[i].resetTokenExpiry.Some? && users[i].resetTokenExpiry.value > now
    ensures (forall i :: 0 <= i < |users| && TokenMatches(users[i], token) ==>
               users[i].resetTokenExpiry == Some(now)) ==>
      ResetPassword(users, token, password, now, hash).reply == Err(BAD_REQUEST, InvalidOrExpired)
  {
  }

  /** Only the matched account changes; every other account is untouched. */
  lemma ResetTouchesOnlyTheMatchedAccount(users: seq<User>, token: Option<string>, password: Option<string>,
                                          now: Time, hash: string -> Digest, j: nat)
    requires ResetPassword(users, token, password, now, hash).reply.Ok?
    requires j < |users| && !TokenValid(users[j], token, now)
    ensures ResetPassword(users, token, password, now, hash).store[j] == users[j]
  {
  }

  /** A token is single-use: when no other account matches it, the same
      token is refused on a second attempt, whatever the clock then says. */
  lemma ResetTokenIsSingleUse(users: seq<User>, token: Option<string>, password: Option<string>, now: Time,
                              later: Time, password': Option<string>, hash: string -> Digest)
    requires ResetPassword(users, token, password, now, hash).reply.Ok?
    requires forall i, j :: 0 <= i < |users| && 0 <= j < |users| ==>
      (TokenMatches(users[i], token) && TokenMatches(users[j], token) ==> i == j)
    ensures ResetPassword(ResetPassword(users, token, password, now, hash).store, token, password', later, hash).reply
      == Err(BAD_REQUEST, InvalidOrExpired)
  {
    var i := FindByResetToken(users, token, now).value;
    var users' := ResetPassword(users, token, password, now, hash).store;
    forall j | 0 <= j < |users'| ensures !TokenValid(users'[j], token, later) {
      if j != i {
        assert users'[j] == users[j];
      }
    }
  }

  /** As written, a body without a token resets the password of the first
      account with any pending reset, whoever holds that token. */
  lemma AbsentTokenResetsFirstPendingAccount(users: seq<User>, password: Option<string>, now: Time,
                                             hash: string -> Digest, i: nat)
    requires i < |users| && ResetPending(users[i], now)
    requires forall j :: 0 <= j < i ==> !ResetPending(users[j], now)
    requires password.Some? && SchemaValid(users[i])
    ensures ResetPassword(users, None, password, now, hash)
      == Handled(Ok(OK, ()), users[i := PasswordReplaced(users[i], hash(password.value))])
  {
  }

  /** The reset route with a submitted token required: an absent token is
      refused as invalid before the accounts are searched. */
  function ResetPasswordWithToken(users: seq<User>, token: Option<string>, password: Option<string>, now: Time,
                                  hash: string -> Digest)
    : (h: Handled<(), CredentialError, seq<User>>)
    ensures h.reply.Err? ==> h.store == users
    ensures token.None? ==> h.reply == Err(BAD_REQUEST, InvalidOrExpired)
    ensures h.reply.Ok? ==>
      token.Some? && exists i :: 0 <= i < |users| && users[i].resetToken == token && ResetPending(users[i], now)
    ensures token.Some? ==> h == ResetPassword(users, token, password, now, hash)
  {
    if token.None? then Handled(Err(BAD_REQUEST, InvalidOrExpired), users)
    else ResetPassword(users, token, password, now, hash)
  }

  /** With the token required, a request changes at most the account that
      holds the submitted token; an account holding another token, or none,
      keeps its password. */
  lemma TokenRequiredProtectsOtherAccounts(users: seq<User>, token: Option<string>, password: Option<string>,
                                           now: Time, hash: string -> Digest, j: nat)
    requires j < |users| && users[j].resetToken != token
    ensures ResetPasswordWithToken(users, token, password, now, hash).store[j] == users[j]
  {
  }
}
