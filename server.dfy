// The server's state (the user, lawyer and consultation collections) and the
// routes that change it: the account routes and `/api/consultation`.
// The collections are in-memory maps keyed by record id; whether a database
// write succeeds, the generative model and JSON parsing enter as parameters.
module Server {
  import opened Wrappers
  import opened Strings
  import opened Catalog
  import opened Matcher
  import opened Normalizer
  import opened Accounts

  type Id = string

  /** A stored consultation record. */
  datatype Consultation = Consultation(
    userId: Id,
    query: string,
    mode: Mode,
    visualData: Option<string>,
    isPremium: bool,
    aiResponse: Option<string>,
    citations: seq<string>,
    timestamp: int)

  /** The outcome of `/api/consultation`. */
  datatype ConsultReply =
    | QueryRequired
    | ServiceUnavailable
    | UserNotFound
    | ProcessingFailed
    | Answered(answer: Answer, isPremium: bool)

  /** A JSON reply: its status and the fields it carries (`None` = field absent). */
  datatype HttpReply = HttpReply(
    status: nat,
    message: Option<string>,
    response: Option<string>,
    citations: Option<seq<string>>,
    disclaimer: Option<string>,
    isPremium: Option<bool>)

  const UnavailableMessage: string := "AI Service Unavailable"
  const UnavailableResponse: string :=
    "The AI service is currently unavailable because the API key is missing. Please contact the administrator to set the GEMINI_API_KEY in the environment variables."
  const UnavailableDisclaimer: string := "System Error: Essential configuration missing."
  const FailureMessage: string := "Failed to process AI response"
  const FailureResponse: string :=
    "Sorry, I am having trouble connecting to the AI service right now. Please try again later."

  /**
   * The JSON each outcome sends. Only an answer is a 200; the two fixed
   * service payloads carry empty citations and are the only other replies
   * with a response text.
   */
  function Reply(r: ConsultReply): (h: HttpReply)
    ensures h.status == 200 <==> r.Answered?
    ensures h.status in {200, 400, 404, 500, 503}
    ensures r.ServiceUnavailable? || r.ProcessingFailed? ==> h.citations == Some([]) && h.response.Some?
    ensures r.Answered? ==> h.citations == Some(r.answer.citations) && h.response == r.answer.response
  {
    match r
    case QueryRequired => HttpReply(400, Some("Query is required"), None, None, None, None)
    case ServiceUnavailable =>
      HttpReply(503, Some(UnavailableMessage), Some(UnavailableResponse), Some([]), Some(UnavailableDisclaimer), None)
    case UserNotFound => HttpReply(404, Some("User not found"), None, None, None, None)
    case ProcessingFailed => HttpReply(500, Some(FailureMessage), Some(FailureResponse), Some([]), Some(""), None)
    case Answered(a, premium) => HttpReply(200, None, a.response, Some(a.citations), a.disclaimer, Some(premium))
  }

  /** `!query || !query.trim()` for a query that is absent, null, a string or a falsy value. */
  predicate BlankQuery(query: BodyField)
  {
    match query
    case Missing => true
    case Null => true
    case Str(s) => Trim(s) == []
    case Other(truthy) => !truthy
  }

  /** The topic the consultation route retrieves for a query. */
  function ContextFor(query: string): Option<Topic>
  {
    RelevantContext(LegalReferenceData, Trim(query))
  }

  /**
   * Over the catalog, the retrieved topic is absent exactly when no keyword
   * of any topic occurs in the lower-cased trimmed query, and otherwise it is
   * the catalog's first topic of highest score.
   */
  lemma ContextForSpec(query: string)
    ensures var q := Lower(Trim(query));
      && (ContextFor(query).None? <==> NoKeywordOccurs(LegalReferenceData, q))
      && (ContextFor(query).Some? ==>
            ContextFor(query).value in LegalReferenceData &&
            exists i :: IsBestMatch(LegalReferenceData, q, i) && ContextFor(query).value == LegalReferenceData[i])
  {
    LegalReferenceDataWellFormed();
    RelevantContextSpec(LegalReferenceData, Trim(query));
  }

  /**
   * The chat-history push: exactly one entry more, at the end, the earlier
   * entries and every other field unchanged.
   */
  function RecordConsultation(u: User, e: ChatEntry): (r: User)
    ensures |r.chatHistory| == |u.chatHistory| + 1
    ensures r.chatHistory[..|u.chatHistory|] == u.chatHistory
    ensures r.chatHistory[|u.chatHistory|] == e
    ensures r.(chatHistory := u.chatHistory) == u
  {
    u.(chatHistory := u.chatHistory + [e])
  }

  /** No two users share an email or a phone number. */
  ghost predicate UniqueUsers(users: map<Id, User>)
  {
    forall a, b :: a in users && b in users && a != b ==>
      users[a].email != users[b].email && users[a].phone != users[b].phone
  }

  /** No two lawyers share an email, a phone number or a bar council number. */
  ghost predicate UniqueLawyers(lawyers: map<Id, Lawyer>)
  {
    forall a, b :: a in lawyers && b in lawyers && a != b ==>
      && lawyers[a].email != lawyers[b].email
      && lawyers[a].phone != lawyers[b].phone
      && lawyers[a].barCouncilNumber != lawyers[b].barCouncilNumber
  }

  /** The signup duplicate check: `findOne({ $or: [{ email }, { phone }] })`. */
  predicate UserTaken(users: map<Id, User>, email: string, phone: string)
  {
    exists id :: id in users && (users[id].email == email || users[id].phone == phone)
  }

  /** The lawyer signup duplicate check, which adds the bar council number. */
  predicate LawyerTaken(lawyers: map<Id, Lawyer>, email: string, phone: string, bar: string)
  {
    exists id :: id in lawyers &&
      (lawyers[id].email == email || lawyers[id].phone == phone || lawyers[id].barCouncilNumber == bar)
  }

  class Store {
    var users: map<Id, User>
    var lawyers: map<Id, Lawyer>
    var consultations: seq<Consultation>

    /**
     * The store's invariant: the account invariants hold for every record and
     * the unique schema keys are unique.
     */
    ghost predicate Valid()
      reads this
    {
      && (forall id :: id in users ==> CredentialsInvariant(users[id].cred))
      && (forall id :: id in lawyers ==> LawyerInvariant(lawyers[id]))
      && UniqueUsers(users)
      && UniqueLawyers(lawyers)
    }

    constructor()
      ensures Valid()
      ensures users == map[] && lawyers == map[] && consultations == []
    {
      users := map[];
      lawyers := map[];
      consultations := [];
    }

    /** `User.findOne({ email })`: the one user with that email, if any. */
    method FindUserByEmail(email: string) returns (r: Option<Id>)
      requires Valid()
      ensures r.None? <==> forall id :: id in users ==> users[id].email != email
      ensures r.Some? ==> r.value in users && users[r.value].email == email
    {
      if exists id :: id in users && users[id].email == email {
        var id :| id in users && users[id].email == email;
        r := Some(id);
      } else {
        r := None;
      }
    }

    /** `Lawyer.findOne({ email })`. */
    method FindLawyerByEmail(email: string) returns (r: Option<Id>)
      requires Valid()
      ensures r.None? <==> forall id :: id in lawyers ==> lawyers[id].email != email
      ensures r.Some? ==> r.value in lawyers && lawyers[r.value].email == email
    {
      if exists id :: id in lawyers && lawyers[id].email == email {
        var id :| id in lawyers && lawyers[id].email == email;
        r := Some(id);
      } else {
        r := None;
      }
    }

    /**
     * `POST /api/user/signup` under the fresh id `id`, with the password's
     * hash and the two generated OTPs: refused when the email or the phone is
     * registered, otherwise an unverified user holding both OTPs is stored.
     */
    method SignupUser(id: Id, fullName: string, email: string, phone: string,
                      passwordHash: string, emailOtp: string, phoneOtp: string, now: int)
      returns (r: Outcome)
      requires Valid() && id !in users
      modifies this
      ensures Valid()
      ensures lawyers == old(lawyers) && consultations == old(consultations)
      ensures old(UserTaken(users, email, phone)) ==> r == Refused(AlreadyRegistered) && users == old(users)
      ensures !old(UserTaken(users, email, phone)) ==>
        && r == Done
        && users == old(users)[id := User(fullName, email, phone, NewCredentials(passwordHash, emailOtp, phoneOtp, now), false, false, [])]
    {
      if UserTaken(users, email, phone) {
        return Refused(AlreadyRegistered);
      }
      users := users[id := User(fullName, email, phone, NewCredentials(passwordHash, emailOtp, phoneOtp, now), false, false, [])];
      r := Done;
    }

    /** `POST /api/user/verify-otp`, with the intended OTP check (`VerifyOtpAsWritten` is the route as written). */
    method VerifyUserOtp(id: Id, emailOtp: BodyField, phoneOtp: BodyField, now: int) returns (r: Outcome)
      requires Valid()
      modifies this
      ensures Valid()
      ensures lawyers == old(lawyers) && consultations == old(consultations)
      ensures id !in old(users) ==> r == Refused(NotFound) && users == old(users)
      ensures id in old(users) ==>
        match VerifyOtp(old(users)[id].cred, emailOtp, phoneOtp, now)
        case Err(e) => r == Refused(e) && users == old(users)
        case Ok(c) => r == Done && users == old(users)[id := old(users)[id].(cred := c)]
    {
      if id !in users {
        return Refused(NotFound);
      }
      var user := users[id];
      TransitionsKeepInvariant(user.cred, emailOtp, phoneOtp, "", "", now);
      match VerifyOtp(user.cred, emailOtp, phoneOtp, now)
      case Err(e) =>
        r := Refused(e);
      case Ok(c) =>
        users := users[id := user.(cred := c)];
        r := Done;
    }

    /** `POST /api/user/login`; `checkPassword` stands for `bcrypt.compare`. */
    method LoginUser(email: string, password: string, checkPassword: (string, string) -> bool, now: int)
      returns (r: Outcome)
      requires Valid()
      modifies this
      ensures Valid()
      ensures lawyers == old(lawyers) && consultations == old(consultations)
      ensures (forall id :: id in old(users) ==> old(users)[id].email != email) ==>
        r == Refused(NotFound) && users == old(users)
      ensures forall id :: id in old(users) && old(users)[id].email == email ==>
        var u := old(users)[id];
        match UserLogin(u.cred, checkPassword(password, u.cred.password), now)
        case Err(e) => r == Refused(e) && users == old(users)
        case Ok(c) => r == Done && users == old(users)[id := u.(cred := c)]
    {
      var found := FindUserByEmail(email);
      if found.None? {
        return Refused(NotFound);
      }
      var id := found.value;
      var user := users[id];
      TransitionsKeepInvariant(user.cred, Missing, Missing, "", "", now);
      match UserLogin(user.cred, checkPassword(password, user.cred.password), now)
      case Err(e) =>
        r := Refused(e);
      case Ok(c) =>
        users := users[id := user.(cred := c)];
        r := Done;
    }

    /** `POST /api/user/forgot-password` with the generated OTP. */
    method ForgotPassword(email: string, otp: string, now: int) returns (r: Outcome)
      requires Valid()
      modifies this
      ensures Valid()
      ensures lawyers == old(lawyers) && consultations == old(consultations)
      ensures (forall id :: id in old(users) ==> old(users)[id].email != email) ==>
        r == Refused(NotFound) && users == old(users)
      ensures forall id :: id in old(users) && old(users)[id].email == email ==>
        r == Done && users == old(users)[id := old(users)[id].(cred := IssueOtp(old(users)[id].cred, otp, now))]
    {
      var found := FindUserByEmail(email);
      if found.None? {
        return Refused(NotFound);
      }
      var id := found.value;
      var user := users[id];
      TransitionsKeepInvariant(user.cred, Missing, Missing, otp, "", now);
      users := users[id := user.(cred := IssueOtp(user.cred, otp, now))];
      r := Done;
    }

    /** `POST /api/user/reset-password`, with the intended OTP check (`ResetPasswordAsWritten` is the route as written); `newHash` is the new password's hash. */
    method ResetUserPassword(email: string, otp: BodyField, newHash: string, now: int) returns (r: Outcome)
      requires Valid()
      modifies this
      ensures Valid()
      ensures lawyers == old(lawyers) && consultations == old(consultations)
      ensures (forall id :: id in old(users) ==> old(users)[id].email != email) ==>
        r == Refused(NotFound) && users == old(users)
      ensures forall id :: id in old(users) && old(users)[id].email == email ==>
        match ResetPassword(old(users)[id].cred, otp, newHash, now)
        case Err(e) => r == Refused(e) && users == old(users)
        case Ok(c) => r == Done && users == old(users)[id := old(users)[id].(cred := c)]
    {
      var found := FindUserByEmail(email);
      if found.None? {
        return Refused(NotFound);
      }
      var id := found.value;
      var user := users[id];
      TransitionsKeepInvariant(user.cred, otp, Missing, "", newHash, now);
      match ResetPassword(user.cred, otp, newHash, now)
      case Err(e) =>
        r := Refused(e);
      case Ok(c) =>
        users := users[id := user.(cred := c)];
        r := Done;
    }

    /**
     * `POST /api/user/change-password-request` for the signed-in user: a new
     * OTP is issued; a missing user makes the route throw outside any `try`
     * (`Unhandled`).
     */
    method RequestPasswordChange(userId: Id, otp: string, now: int) returns (r: Outcome)
      requires Valid()
      modifies this
      ensures Valid()
      ensures lawyers == old(lawyers) && consultations == old(consultations)
      ensures userId !in old(users) ==> r == Refused(Unhandled) && users == old(users)
      ensures userId in old(users) ==>
        r == Done && users == old(users)[userId := old(users)[userId].(cred := IssueOtp(old(users)[userId].cred, otp, now))]
    {
      if userId !in users {
        return Refused(Unhandled);
      }
      var user := users[userId];
      TransitionsKeepInvariant(user.cred, Missing, Missing, otp, "", now);
      users := users[userId := user.(cred := IssueOtp(user.cred, otp, now))];
      r := Done;
    }

    /** `POST /api/user/change-password-verify`, with the intended OTP check (`ResetPasswordAsWritten` is the route as written). */
    method VerifyPasswordChange(userId: Id, otp: BodyField, newHash: string, now: int) returns (r: Outcome)
      requires Valid()
      modifies this
      ensures Valid()
      ensures lawyers == old(lawyers) && consultations == old(consultations)
      ensures userId !in old(users) ==> r == Refused(Unhandled) && users == old(users)
      ensures userId in old(users) ==>
        match ResetPassword(old(users)[userId].cred, otp, newHash, now)
        case Err(e) => r == Refused(e) && users == old(users)
        case Ok(c) => r == Done && users == old(users)[userId := old(users)[userId].(cred := c)]
    {
      if userId !in users {
        return Refused(Unhandled);
      }
      var user := users[userId];
      TransitionsKeepInvariant(user.cred, otp, Missing, "", newHash, now);
      match ResetPassword(user.cred, otp, newHash, now)
      case Err(e) =>
        r := Refused(e);
      case Ok(c) =>
        users := users[userId := user.(cred := c)];
        r := Done;
    }

    /**
     * `POST /api/lawyer/signup`: refused when the email, the phone or the bar
     * council number is registered, otherwise an unverified, unapproved,
     * pending lawyer holding both OTPs is stored.
     */
    method SignupLawyer(id: Id, fullName: string, email: string, phone: string, bar: string,
                        passwordHash: string, emailOtp: string, phoneOtp: string, now: int)
      returns (r: Outcome)
      requires Valid() && id !in lawyers
      modifies this
      ensures Valid()
      ensures users == old(users) && consultations == old(consultations)
      ensures old(LawyerTaken(lawyers, email, phone, bar)) ==> r == Refused(AlreadyRegistered) && lawyers == old(lawyers)
      ensures !old(LawyerTaken(lawyers, email, phone, bar)) ==>
        && r == Done
        && lawyers == old(lawyers)[id := Lawyer(fullName, email, phone, bar,
             NewCredentials(passwordHash, emailOtp, phoneOtp, now), false, PendingStatus, false)]
    {
      if LawyerTaken(lawyers, email, phone, bar) {
        return Refused(AlreadyRegistered);
      }
      lawyers := lawyers[id := Lawyer(fullName, email, phone, bar,
        NewCredentials(passwordHash, emailOtp, phoneOtp, now), false, PendingStatus, false)];
      r := Done;
    }

    /** `POST /api/lawyer/verify-otp` with the intended OTP check; verification does not approve. */
    method VerifyLawyerOtp(id: Id, emailOtp: BodyField, phoneOtp: BodyField, now: int) returns (r: Outcome)
      requires Valid()
      modifies this
      ensures Valid()
      ensures users == old(users) && consultations == old(consultations)
      ensures id !in old(lawyers) ==> r == Refused(NotFound) && lawyers == old(lawyers)
      ensures id in old(lawyers) ==>
        match VerifyOtp(old(lawyers)[id].cred, emailOtp, phoneOtp, now)
        case Err(e) => r == Refused(e) && lawyers == old(lawyers)
        case Ok(c) => r == Done && lawyers == old(lawyers)[id := old(lawyers)[id].(cred := c)]
    {
      if id !in lawyers {
        return Refused(NotFound);
      }
      var lawyer := lawyers[id];
      TransitionsKeepInvariant(lawyer.cred, emailOtp, phoneOtp, "", "", now);
      match VerifyOtp(lawyer.cred, emailOtp, phoneOtp, now)
      case Err(e) =>
        r := Refused(e);
      case Ok(c) =>
        lawyers := lawyers[id := lawyer.(cred := c)];
        r := Done;
    }

    /** `POST /api/lawyer/login`. */
    method LoginLawyer(email: string, password: string, checkPassword: (string, string) -> bool, now: int)
      returns (r: Outcome)
      requires Valid()
      modifies this
      ensures Valid()
      ensures users == old(users) && consultations == old(consultations)
      ensures (forall id :: id in old(lawyers) ==> old(lawyers)[id].email != email) ==>
        r == Refused(NotFound) && lawyers == old(lawyers)
      ensures forall id :: id in old(lawyers) && old(lawyers)[id].email == email ==>
        var l := old(lawyers)[id];
        match LawyerLogin(l, checkPassword(password, l.cred.password), now)
        case Err(e) => r == Refused(e) && lawyers == old(lawyers)
        case Ok(l') => r == Done && lawyers == old(lawyers)[id := l']
    {
      var found := FindLawyerByEmail(email);
      if found.None? {
        return Refused(NotFound);
      }
      var id := found.value;
      var lawyer := lawyers[id];
      ApproveKeepsInvariant(lawyer, now);
      match LawyerLogin(lawyer, checkPassword(password, lawyer.cred.password), now)
      case Err(e) =>
        r := Refused(e);
      case Ok(l) =>
        lawyers := lawyers[id := l];
        r := Done;
    }

    /** `POST /api/admin/approve-lawyer/:id`: only an admin token may approve. */
    method ApproveLawyer(isAdmin: bool, id: Id) returns (r: Outcome)
      requires Valid()
      modifies this
      ensures Valid()
      ensures users == old(users) && consultations == old(consultations)
      ensures !isAdmin ==> r == Refused(AdminRequired) && lawyers == old(lawyers)
      ensures isAdmin && id !in old(lawyers) ==> r == Refused(NotFound) && lawyers == old(lawyers)
      ensures isAdmin && id in old(lawyers) ==> r == Done && lawyers == old(lawyers)[id := Approve(old(lawyers)[id])]
    {
      if !isAdmin {
        return Refused(AdminRequired);
      }
      if id !in lawyers {
        return Refused(NotFound);
      }
      ApproveKeepsInvariant(lawyers[id], 0);
      lawyers := lawyers[id := Approve(lawyers[id])];
      r := Done;
    }

    /**
     * The two writes that end a consultation: the consultation record, then
     * the user's chat history. When the second write fails the first stays.
     */
    method SaveConsultation(userId: Id, q: string, mode: Mode, visualData: Option<string>,
                            answer: Answer, userSaved: bool, now: int)
      returns (reply: ConsultReply)
      requires Valid() && userId in users
      modifies this
      ensures Valid()
      ensures lawyers == old(lawyers)
      ensures var u := old(users)[userId];
        && consultations == old(consultations) +
             [Consultation(userId, q, mode, visualData, u.isPremium, answer.response, answer.citations, now)]
        && (!userSaved ==> reply == ProcessingFailed && users == old(users))
        && (userSaved ==>
              && reply == Answered(answer, u.isPremium)
              && users == old(users)[userId := RecordConsultation(u,
                   ChatEntry(q, answer.response, mode, u.isPremium, answer.citations, now))])
    {
      var user := users[userId];
      consultations := consultations +
        [Consultation(userId, q, mode, visualData, user.isPremium, answer.response, answer.citations, now)];
      if !userSaved {
        return ProcessingFailed;
      }
      var updated := RecordConsultation(user,
        ChatEntry(q, answer.response, mode, user.isPremium, answer.citations, now));
      assert updated.cred == user.cred && updated.email == user.email && updated.phone == user.phone;
      users := users[userId := updated];
      reply := Answered(answer, user.isPremium);
    }

    /**
     * The part of `POST /api/consultation` after the checks, for an existing
     * user and a non-blank query `q`: retrieve the topic, call the model,
     * normalise its reply, then store the consultation and extend the chat
     * history. A missing or invalid mode fails the first write.
     */
    method AnswerQuery(userId: Id, q: string, mode: Option<Mode>, visualData: Option<string>,
                       generate: (string, Option<Topic>) -> Option<string>,
                       parse: string -> Option<ParsedReply>,
                       consultationSaved: bool, userSaved: bool, now: int)
      returns (reply: ConsultReply)
      requires Valid() && userId in users
      modifies this
      ensures Valid()
      ensures lawyers == old(lawyers)
      ensures
        var context := ContextFor(q);
        var u := old(users)[userId];
        match generate(q, context)
        case None => reply == ProcessingFailed && unchanged(this)
        case Some(raw) =>
          var answer := Normalize(raw, parse, context);
          if mode.None? || !consultationSaved then
            reply == ProcessingFailed && unchanged(this)
          else
            && consultations == old(consultations) +
                 [Consultation(userId, q, mode.value, visualData, u.isPremium, answer.response, answer.citations, now)]
            && (!userSaved ==> reply == ProcessingFailed && users == old(users))
            && (userSaved ==>
                  && reply == Answered(answer, u.isPremium)
                  && users == old(users)[userId := RecordConsultation(u,
                       ChatEntry(q, answer.response, mode.value, u.isPremium, answer.citations, now))])
    {
      var context := GetRelevantContext(LegalReferenceData, Trim(q));
      var generated := generate(q, context);
      if generated.None? {
        return ProcessingFailed;
      }
      var answer := Normalize(generated.value, parse, context);
      if mode.None? || !consultationSaved {
        return ProcessingFailed;
      }
      reply := SaveConsultation(userId, q, mode.value, visualData, answer, userSaved, now);
    }

    /**
     * `POST /api/consultation` for the signed-in user `userId`.
     * `apiKeySet` is whether the API key is configured; `generate` is the
     * model call on the query and the retrieved topic (`None` when it
     * throws); `parse` is JSON parsing of the cleaned reply; the two flags
     * say whether the consultation and the user record are written.
     * A blank query is refused before anything else; a non-string query
     * fails at `trim`; a missing key gets the fixed 503 payload; only then is
     * the user looked up and the model called.
     */
    method Consult(userId: Id, query: BodyField, mode: Option<Mode>, visualData: Option<string>,
                   apiKeySet: bool,
                   generate: (string, Option<Topic>) -> Option<string>,
                   parse: string -> Option<ParsedReply>,
                   consultationSaved: bool, userSaved: bool, now: int)
      returns (reply: ConsultReply, modelCalled: bool)
      requires Valid()
      modifies this
      ensures Valid()
      ensures lawyers == old(lawyers)
      ensures BlankQuery(query) ==> reply == QueryRequired && unchanged(this)
      ensures !BlankQuery(query) && query.Other? ==> reply == ProcessingFailed && unchanged(this)
      ensures !BlankQuery(query) && query.Str? && !apiKeySet ==> reply == ServiceUnavailable && unchanged(this)
      ensures !BlankQuery(query) && query.Str? && apiKeySet && userId !in old(users) ==>
        reply == UserNotFound && unchanged(this)
      ensures modelCalled <==> !BlankQuery(query) && query.Str? && apiKeySet && userId in old(users)
      ensures modelCalled ==>
        var q := query.text;
        var context := ContextFor(q);
        var u := old(users)[userId];
        match generate(q, context)
        case None => reply == ProcessingFailed && unchanged(this)
        case Some(raw) =>
          var answer := Normalize(raw, parse, context);
          if mode.None? || !consultationSaved then
            reply == ProcessingFailed && unchanged(this)
          else
            && consultations == old(consultations) +
                 [Consultation(userId, q, mode.value, visualData, u.isPremium, answer.response, answer.citations, now)]
            && (!userSaved ==> reply == ProcessingFailed && users == old(users))
            && (userSaved ==>
                  && reply == Answered(answer, u.isPremium)
                  && users == old(users)[userId := RecordConsultation(u,
                       ChatEntry(q, answer.response, mode.value, u.isPremium, answer.citations, now))])
    {
      if BlankQuery(query) {
        return QueryRequired, false;
      }
      if query.Other? {
        return ProcessingFailed, false;
      }
      if !apiKeySet {
        return ServiceUnavailable, false;
      }
      if userId !in users {
        return UserNotFound, false;
      }
      reply := AnswerQuery(userId, query.text, mode, visualData, generate, parse, consultationSaved, userSaved, now);
      modelCalled := true;
    }
  }
}
