// The account records of users and lawyers and the transitions the
// authentication routes apply to them: OTP verification, the login gates,
// issuing a fresh OTP, resetting a password and approving a lawyer.
// Timestamps are integers (milliseconds); password hashing and comparison are
// opaque and enter as a hash string and a `passwordMatches` flag.
module Accounts {
  import opened Wrappers

  /** How long an issued OTP stays valid: ten minutes, in milliseconds. */
  const OtpLifetime: int := 10 * 60 * 1000

  /**
   * A field of a JSON request body as strict (in)equality sees it: absent
   * (`undefined`), `null`, a string, or any other JSON value, with its
   * JavaScript truthiness.
   */
  datatype BodyField = Missing | Null | Str(text: string) | Other(truthy: bool)

  /** The consultation mode enum shared by chat history and consultations. */
  datatype Mode = TextMode | VoiceMode | VisualMode

  /** One entry of a user's `chatHistory`. */
  datatype ChatEntry = ChatEntry(
    query: string,
    response: Option<string>,
    mode: Mode,
    isPremium: bool,
    citations: seq<string>,
    timestamp: int)

  /**
   * The login and OTP fields users and lawyers share. `password` is the
   * stored hash; a stored OTP of `None` is a `null` in the record.
   */
  datatype Credentials = Credentials(
    password: string,
    isVerified: bool,
    emailOtp: Option<string>,
    phoneOtp: Option<string>,
    otpExpires: int,
    lastLogin: Option<int>)

  datatype AccountStatus = PendingStatus | ActiveStatus

  datatype User = User(
    fullName: string,
    email: string,
    phone: string,
    cred: Credentials,
    isPremium: bool,
    deletionRequested: bool,
    chatHistory: seq<ChatEntry>)

  datatype Lawyer = Lawyer(
    fullName: string,
    email: string,
    phone: string,
    barCouncilNumber: string,
    cred: Credentials,
    isApproved: bool,
    accountStatus: AccountStatus,
    deletionRequested: bool)

  /**
   * Why a route refused. `Unhandled` is the change-password routes reading a
   * field of a missing user outside any `try`: the rejected promise reaches no
   * handler of the application, so what the client sees depends on the
   * version of the web framework (no reply at all, or its default error page).
   */
  datatype AuthError =
    | NotFound
    | AlreadyRegistered
    | OtpExpired
    | InvalidOtp
    | InvalidCredentials
    | NotVerified
    | PendingApproval
    | InvalidOrExpiredOtp
    | AdminRequired
    | Unhandled

  datatype Outcome = Done | Refused(error: AuthError)

  /** The HTTP status of a refusal; `Unhandled` has none. */
  function HttpStatus(e: AuthError): (r: Option<nat>)
    ensures r.None? <==> e == Unhandled
    ensures r.Some? ==> r.value in {400, 403, 404}
  {
    match e
    case NotFound => Some(404)
    case AdminRequired => Some(403)
    case Unhandled => None
    case _ => Some(400)
  }

  // ---------------------------------------------------------------- OTP codes

  /**
   * The comparison of the reset and change-password routes as written:
   * `user.emailOtp !== otp` is false, so the OTP is accepted, exactly when
   * the stored value and the submitted one are the same string or both
   * `null`.
   */
  predicate OtpEqualsAsWritten(stored: Option<string>, submitted: BodyField)
  {
    match stored
    case None => submitted == Null
    case Some(code) => submitted == Str(code)
  }

  /** The intended check: there is a stored OTP and the request carries it. */
  predicate OtpAccepts(stored: Option<string>, submitted: BodyField)
  {
    stored.Some? && submitted == Str(stored.value)
  }

  /** Both comparisons agree whenever an OTP is stored. */
  lemma OtpChecksAgreeWhenStored(stored: Option<string>, submitted: BodyField)
    requires stored.Some?
    ensures OtpAccepts(stored, submitted) <==> OtpEqualsAsWritten(stored, submitted)
  {
  }

  /** A cleared OTP is accepted by nothing under the intended check. */
  lemma ClearedOtpAcceptsNothing(submitted: BodyField)
    ensures !OtpAccepts(None, submitted)
  {
  }

  // -------------------------------------------------------------- transitions

  /** The record signup creates: unverified, holding both fresh OTPs. */
  function NewCredentials(passwordHash: string, emailOtp: string, phoneOtp: string, now: int): (c: Credentials)
    ensures !c.isVerified && c.lastLogin.None?
    ensures c.emailOtp == Some(emailOtp) && c.phoneOtp == Some(phoneOtp)
    ensures c.otpExpires == now + OtpLifetime
  {
    Credentials(passwordHash, false, Some(emailOtp), Some(phoneOtp), now + OtpLifetime, None)
  }

  /**
   * `verify-otp`: an expired OTP is refused before the codes are compared;
   * then both codes must match; on success the account is verified and both
   * OTPs are cleared.
   */
  function VerifyOtp(c: Credentials, emailOtp: BodyField, phoneOtp: BodyField, now: int): Result<Credentials, AuthError>
  {
    if c.otpExpires < now then Err(OtpExpired)
    else if !OtpAccepts(c.emailOtp, emailOtp) || !OtpAccepts(c.phoneOtp, phoneOtp) then Err(InvalidOtp)
    else Ok(c.(isVerified := true, emailOtp := None, phoneOtp := None))
  }

  /** `verify-otp` as written, comparing both codes with `!==`. */
  function VerifyOtpAsWritten(c: Credentials, emailOtp: BodyField, phoneOtp: BodyField, now: int): Result<Credentials, AuthError>
  {
    if c.otpExpires < now then Err(OtpExpired)
    else if !OtpEqualsAsWritten(c.emailOtp, emailOtp) || !OtpEqualsAsWritten(c.phoneOtp, phoneOtp) then Err(InvalidOtp)
    else Ok(c.(isVerified := true, emailOtp := None, phoneOtp := None))
  }

  /** The user login gates: password, then verification; success stamps `lastLogin`. */
  function UserLogin(c: Credentials, passwordMatches: bool, now: int): Result<Credentials, AuthError>
  {
    if !passwordMatches then Err(InvalidCredentials)
    else if !c.isVerified then Err(NotVerified)
    else Ok(c.(lastLogin := Some(now)))
  }

  /** The lawyer login gates: password, then verification, then approval. */
  function LawyerLogin(l: Lawyer, passwordMatches: bool, now: int): Result<Lawyer, AuthError>
  {
    if !passwordMatches then Err(InvalidCredentials)
    else if !l.cred.isVerified then Err(NotVerified)
    else if !l.isApproved then Err(PendingApproval)
    else Ok(l.(cred := l.cred.(lastLogin := Some(now))))
  }

  /** `forgot-password` and `change-password-request`: store a new email OTP for ten minutes. */
  function IssueOtp(c: Credentials, otp: string, now: int): Credentials
  {
    c.(emailOtp := Some(otp), otpExpires := now + OtpLifetime)
  }

  /**
   * `reset-password` and `change-password-verify` as written: refused when
   * the OTP differs (by `!==`) or has expired; otherwise the new hash is
   * stored and the email OTP cleared.
   */
  function ResetPasswordAsWritten(c: Credentials, otp: BodyField, newHash: string, now: int): Result<Credentials, AuthError>
  {
    if !OtpEqualsAsWritten(c.emailOtp, otp) || c.otpExpires < now then Err(InvalidOrExpiredOtp)
    else Ok(c.(password := newHash, emailOtp := None))
  }

  /** The same routes with the intended OTP check; the model uses this one. */
  function ResetPassword(c: Credentials, otp: BodyField, newHash: string, now: int): Result<Credentials, AuthError>
  {
    if !OtpAccepts(c.emailOtp, otp) || c.otpExpires < now then Err(InvalidOrExpiredOtp)
    else Ok(c.(password := newHash, emailOtp := None))
  }

  /** `approve-lawyer`: approved and active. */
  function Approve(l: Lawyer): Lawyer
  {
    l.(isApproved := true, accountStatus := ActiveStatus)
  }

  // --------------------------------------------------------------- invariants

  /** A verified account holds no phone OTP (only verification clears it, and it also verifies). */
  predicate CredentialsInvariant(c: Credentials)
  {
    c.isVerified ==> c.phoneOtp.None?
  }

  /** An approved lawyer is active, and the shared invariant holds. */
  predicate LawyerInvariant(l: Lawyer)
  {
    && CredentialsInvariant(l.cred)
    && (l.isApproved ==> l.accountStatus == ActiveStatus)
  }

  /** Every transition keeps the credentials invariant. */
  lemma TransitionsKeepInvariant(c: Credentials, e: BodyField, p: BodyField, otp: string, h: string, now: int)
    requires CredentialsInvariant(c)
    ensures CredentialsInvariant(NewCredentials(h, otp, otp, now))
    ensures VerifyOtp(c, e, p, now).Ok? ==> CredentialsInvariant(VerifyOtp(c, e, p, now).value)
    ensures UserLogin(c, true, now).Ok? ==> CredentialsInvariant(UserLogin(c, true, now).value)
    ensures CredentialsInvariant(IssueOtp(c, otp, now))
    ensures ResetPassword(c, e, h, now).Ok? ==> CredentialsInvariant(ResetPassword(c, e, h, now).value)
  {
  }

  /** Approval and login keep the lawyer invariant; approval is idempotent. */
  lemma ApproveKeepsInvariant(l: Lawyer, now: int)
    requires CredentialsInvariant(l.cred)
    ensures LawyerInvariant(Approve(l))
    ensures Approve(Approve(l)) == Approve(l)
    ensures LawyerInvariant(l) && LawyerLogin(l, true, now).Ok? ==> LawyerInvariant(LawyerLogin(l, true, now).value)
  {
  }

  // ------------------------------------------------------------------ gates

  /**
   * Verification: expiry is checked before the codes, so even the right codes
   * are refused late; before expiry it succeeds exactly when both stored codes
   * are present and submitted, and then the account is verified, both OTPs
   * are gone and nothing else changes.
   */
  lemma VerifyOtpGates(c: Credentials, e: BodyField, p: BodyField, now: int)
    ensures c.otpExpires < now ==> VerifyOtp(c, e, p, now) == Err(OtpExpired)
    ensures now <= c.otpExpires ==>
      (VerifyOtp(c, e, p, now).Ok? <==> c.emailOtp.Some? && c.phoneOtp.Some? && e == Str(c.emailOtp.value) && p == Str(c.phoneOtp.value))
    ensures VerifyOtp(c, e, p, now).Err? ==> VerifyOtp(c, e, p, now).error in {OtpExpired, InvalidOtp}
    ensures VerifyOtp(c, e, p, now).Ok? ==> var v := VerifyOtp(c, e, p, now).value;
      && v.isVerified && v.emailOtp.None? && v.phoneOtp.None?
      && v.password == c.password && v.otpExpires == c.otpExpires && v.lastLogin == c.lastLogin
  {
  }

  /** A successful verification cannot be repeated: the codes it consumed are gone. */
  lemma VerificationIsSingleUse(c: Credentials, e: BodyField, p: BodyField, now: int, e2: BodyField, p2: BodyField, later: int)
    requires VerifyOtp(c, e, p, now).Ok?
    ensures VerifyOtp(VerifyOtp(c, e, p, now).value, e2, p2, later).Err?
  {
  }

  /**
   * User login refuses a wrong password first, then an unverified account;
   * it succeeds exactly when both gates pass.
   */
  lemma UserLoginGates(c: Credentials, passwordMatches: bool, now: int)
    ensures !passwordMatches ==> UserLogin(c, passwordMatches, now) == Err(InvalidCredentials)
    ensures passwordMatches && !c.isVerified ==> UserLogin(c, passwordMatches, now) == Err(NotVerified)
    ensures UserLogin(c, passwordMatches, now).Ok? <==> passwordMatches && c.isVerified
    ensures UserLogin(c, passwordMatches, now).Ok? ==> UserLogin(c, passwordMatches, now).value == c.(lastLogin := Some(now))
  {
  }

  /** Lawyer login checks the password, then verification, then approval, in that order. */
  lemma LawyerLoginGates(l: Lawyer, passwordMatches: bool, now: int)
    ensures !passwordMatches ==> LawyerLogin(l, passwordMatches, now) == Err(InvalidCredentials)
    ensures passwordMatches && !l.cred.isVerified ==> LawyerLogin(l, passwordMatches, now) == Err(NotVerified)
    ensures passwordMatches && l.cred.isVerified && !l.isApproved ==> LawyerLogin(l, passwordMatches, now) == Err(PendingApproval)
    ensures LawyerLogin(l, passwordMatches, now).Ok? <==> passwordMatches && l.cred.isVerified && l.isApproved
  {
  }

  /**
   * The lawyer life cycle: a new account cannot log in; verified with the
   * issued codes in time, it is still pending approval; once approved it logs
   * in.
   */
  lemma LawyerLifeCycle(lawyer: Lawyer, hash: string, eo: string, po: string, t0: int, t1: int, t2: int)
    requires lawyer.cred == NewCredentials(hash, eo, po, t0) && !lawyer.isApproved
    requires t1 <= t0 + OtpLifetime
    ensures LawyerLogin(lawyer, true, t1) == Err(NotVerified)
    ensures VerifyOtp(lawyer.cred, Str(eo), Str(po), t1).Ok?
    ensures var verified := lawyer.(cred := VerifyOtp(lawyer.cred, Str(eo), Str(po), t1).value);
      && LawyerLogin(verified, true, t2) == Err(PendingApproval)
      && LawyerLogin(Approve(verified), true, t2).Ok?
  {
  }

  /** The user life cycle: a new account cannot log in until it is verified in time. */
  lemma UserLifeCycle(hash: string, eo: string, po: string, t0: int, t1: int, t2: int)
    requires t1 <= t0 + OtpLifetime
    ensures UserLogin(NewCredentials(hash, eo, po, t0), true, t1) == Err(NotVerified)
    ensures VerifyOtp(NewCredentials(hash, eo, po, t0), Str(eo), Str(po), t1).Ok?
    ensures UserLogin(VerifyOtp(NewCredentials(hash, eo, po, t0), Str(eo), Str(po), t1).value, true, t2).Ok?
  {
  }

  /**
   * Resetting a password: it succeeds exactly when an OTP is stored, the
   * request carries it and it has not expired; then only the hash and the
   * email OTP change, and the OTP cannot be used a second time.
   */
  lemma ResetPasswordGates(c: Credentials, otp: BodyField, h: string, now: int, otp2: BodyField, h2: string, later: int)
    ensures ResetPassword(c, otp, h, now).Ok? <==> c.emailOtp.Some? && otp == Str(c.emailOtp.value) && now <= c.otpExpires
    ensures ResetPassword(c, otp, h, now).Ok? ==>
      && ResetPassword(c, otp, h, now).value == c.(password := h, emailOtp := None)
      && ResetPassword(ResetPassword(c, otp, h, now).value, otp2, h2, later).Err?
    ensures ResetPassword(c, otp, h, now).Err? ==> ResetPassword(c, otp, h, now).error == InvalidOrExpiredOtp
  {
  }

  /** An OTP issued now can reset the password until it expires, and not after. */
  lemma IssuedOtpResets(c: Credentials, otp: string, h: string, now: int, t: int)
    ensures ResetPassword(IssueOtp(c, otp, now), Str(otp), h, t).Ok? <==> t <= now + OtpLifetime
  {
  }

  /**
   * After verification has cleared the OTPs, the intended check refuses every
   * password reset, whatever the request carries.
   */
  lemma NoResetAfterVerification(c: Credentials, e: BodyField, p: BodyField, now: int, otp: BodyField, h: string, t: int)
    requires VerifyOtp(c, e, p, now).Ok?
    ensures ResetPassword(VerifyOtp(c, e, p, now).value, otp, h, t).Err?
  {
  }

  /**
   * The code as written: right after a successful verification (or a
   * completed reset), a request carrying `otp: null` resets the password
   * without any code, as long as the signup OTP's expiry has not passed.
   */
  lemma NullOtpResetsAfterVerificationAsWritten(c: Credentials, e: BodyField, p: BodyField, now: int, h: string, t: int)
    requires VerifyOtp(c, e, p, now).Ok?
    requires t <= c.otpExpires
    ensures ResetPasswordAsWritten(VerifyOtp(c, e, p, now).value, Null, h, t) ==
      Ok(VerifyOtp(c, e, p, now).value.(password := h))
  {
  }

  /** A concrete instance: a fresh signup, verified at once, then reset with `otp: null`. */
  lemma NullOtpCounterexample()
    ensures var c := NewCredentials("hash", "123456", "654321", 0);
      var v := VerifyOtp(c, Str("123456"), Str("654321"), 1000);
      && v.Ok?
      && ResetPasswordAsWritten(v.value, Null, "attacker", 2000).Ok?
      && ResetPassword(v.value, Null, "attacker", 2000).Err?
  {
  }

  /**
   * The code as written: an unverified account that used its email OTP for a
   * password reset is verified by `emailOtp: null` and the phone code alone,
   * which the intended check refuses.
   */
  lemma NullEmailOtpVerifiesAsWritten(c: Credentials, otp: string, h: string, now: int, t: int)
    requires !c.isVerified && c.phoneOtp.Some?
    requires t <= now + OtpLifetime
    ensures ResetPassword(IssueOtp(c, otp, now), Str(otp), h, t).Ok?
    ensures var r := ResetPassword(IssueOtp(c, otp, now), Str(otp), h, t).value;
      && VerifyOtpAsWritten(r, Null, Str(c.phoneOtp.value), t).Ok?
      && VerifyOtp(r, Null, Str(c.phoneOtp.value), t).Err?
  {
  }

  /**
   * The code as written: once verification has cleared both OTPs, a second
   * `verify-otp` carrying `null` for both codes succeeds again before the
   * signup expiry. The user route then issues a fresh session token; the
   * lawyer route succeeds with a message only. The intended check refuses it.
   */
  lemma NullReverificationAsWritten(c: Credentials, e: BodyField, p: BodyField, now: int, later: int)
    requires VerifyOtpAsWritten(c, e, p, now).Ok?
    requires later <= c.otpExpires
    ensures VerifyOtpAsWritten(VerifyOtpAsWritten(c, e, p, now).value, Null, Null, later) == VerifyOtpAsWritten(c, e, p, now)
    ensures VerifyOtp(VerifyOtpAsWritten(c, e, p, now).value, Null, Null, later).Err?
  {
  }
}
