# SamvidhanAI — a Dafny model of its core

SamvidhanAI is a legal-help web application for Indian law. Citizens and
lawyers sign up and are verified by one-time passwords (OTPs). An
administrator approves lawyers. A signed-in user asks a question, and the
server answers it with a generative model. The answer is grounded in a small
built-in catalog of legal topics. This project models that core and proves
properties about it:

- **Topic retrieval** (`matcher.dfy`, `catalog.dfy`).
  - The eleven-topic catalog `legalReferenceData`.
  - `getRelevantContext`, which scores every topic by the summed length of
    its keywords that occur in the lower-cased query. It keeps the first
    topic with the highest positive score. `GetRelevantContext` is the
    imperative loop, proved equal to the specification function
    `RelevantContext`.
- **The consultation route** (`normalizer.dfy`, `server.dfy`).
  - In order: query validation, the API-key check, the user lookup,
    retrieval, the model call, stripping the ```` ```json ```` fence,
    parsing with its fallback, then storing the consultation and extending
    the user's chat history.
  - The store is a class `Store`. Its users, lawyers and consultations are
    held in fields that the route methods update.
- **The account state machine** (`accounts.dfy`, `server.dfy`).
  - User and lawyer signup, `verify-otp`, the login gates, admin approval,
    and both password-reset flows.
  - Each is a transition on credentials, plus a `Store` method that performs
    it in place.
- **The lawyer dashboard** (`lawyer_dashboard.dfy`).
  - Messages are grouped into a client list sorted by latest message.
  - The unread badge, the distinct-client figure of `updateStats`, and
    selecting a client, which marks their messages read in place.
- **The admin dashboard** (`admin_dashboard.dfy`).
  - The search filters of the users and lawyers tables, and the lawyers'
    status tabs.
  - The overview figures of `loadStats`, the deletion-request list, and the
    five recent users.

`wrappers.dfy`, `seqs.dfy` and `strings.dfy` hold the shared pieces:
- `Option` and `Result`;
- `filter` and the subsequence relation;
- ECMAScript `trim` over its white-space and line-terminator set;
- lower-casing and `includes`.

A few behaviours of `server.js` are easy to misread. The model states them
as the code has them:
- When parsing fails, the reply falls back to the *cleaned* model text, with
  the fence stripped and trimmed, not the raw text.
- The stored and returned `response` is whatever the parsed reply carried.
  It may be empty or missing (`Option`).
- A missing, `null` or other falsy query gets the 400 "Query is required".
  A truthy non-string query (a non-zero number, `true`, an object or an
  array) fails at `trim` inside the `try`, so it gets the 500 payload.
- The consultation is written before the user's history. If the second write
  fails, the store keeps the consultation and the client gets the 500 reply.

## Model

| member | source | states |
|---|---|---|
| Catalog.LegalReferenceDataWellFormed | samvidhanai/server.js:419-475 | the catalog has eleven topics; each has at least one keyword, no empty keyword, a response and at least one citation |
| Matcher.KeywordScoreZeroIff | samvidhanai/server.js:486-490 | a topic scores zero exactly when none of its non-empty keywords occurs in the query |
| Matcher.AllScoresZeroIff | samvidhanai/server.js:484-495 | every topic scores zero exactly when no keyword of any topic occurs |
| Matcher.BestMatchUnique | samvidhanai/server.js:491-494 | at most one index is the first topic of highest positive score |
| Matcher.BestAmong | samvidhanai/server.js:481-495 | after the first n topics, no best index means all of them score zero; a best index has a positive score, beaten by none of them and strictly above every earlier one |
| Matcher.RelevantContextSpec | samvidhanai/server.js:477-498 | retrieval returns nothing exactly when every score is zero (on a well-formed catalog, exactly when no keyword occurs); otherwise it returns the catalog topic at the unique best index |
| Matcher.GetRelevantContext | samvidhanai/server.js:477-498 | the nested scoring loop returns exactly the specified topic |
| Strings.TrimIsCore | samvidhanai/server.js:505 | trim removes only white space, from both ends, and leaves no white space at either end |
| Strings.TrimEmptyIffBlank | samvidhanai/server.js:505 | the trimmed query is empty exactly when the query is all white space |
| Strings.TrimIdempotent | samvidhanai/server.js:525 | trimming twice equals trimming once |
| Strings.ContainsIffOccurs | samvidhanai/server.js:487 | `includes` holds exactly when the needle occurs at some position |
| Strings.ContainsEmpty | samvidhanai/public/js/admin-dashboard.js:171-173 | every string includes the empty string |
| Normalizer.StripOpeningFence | samvidhanai/server.js:538 | the result is a suffix of the text, at least a fence shorter when the text starts with the opening fence, and the text itself otherwise |
| Normalizer.StripClosingFence | samvidhanai/server.js:538 | the result is a prefix of the text, at least a fence shorter when the text ends with the closing fence, and the text itself otherwise |
| Normalizer.UnfencedIsOnlyTrimmed | samvidhanai/server.js:538 | text with no fence at either end is only trimmed |
| Normalizer.FencedCleansToInside | samvidhanai/server.js:538 | a fenced reply cleans to the trimmed text between its fences |
| Normalizer.CleanedOccursInRaw | samvidhanai/server.js:538 | the cleaned text is a contiguous part of the raw reply |
| Normalizer.FencedReplyIsParsedInside | samvidhanai/server.js:538-545 | a fenced JSON reply is parsed from the trimmed text inside the fences, and the parsed response and disclaimer pass through, with missing citations becoming empty |
| Normalizer.NewlineFencedCleansToInside | samvidhanai/server.js:538 | the usual "fence, newline, body, newline, fence" shape cleans to the trimmed body |
| Normalizer.FallbackIsUsable | samvidhanai/server.js:541-552 | an unparsable reply answers with the cleaned text, which occurs in the raw reply; its citations are the topic's, or "Indian Law" when no topic matched, so they are never empty; its disclaimer is the fixed one |
| Normalizer.EmptyFallbackResponse | samvidhanai/server.js:538-552 | a fence with nothing inside that does not parse gives an empty response, not a missing one |
| Server.Reply | samvidhanai/server.js:505-590 | status 200 exactly for an answer, which carries the answer's response and citations; otherwise 400, 404, 500 or 503, and the 503 and 500 bodies carry a response and empty citations |
| Server.ContextForSpec | samvidhanai/server.js:525 | over the catalog, the consultation's topic is absent exactly when no keyword occurs in the trimmed lower-cased query; otherwise it is the catalog's best match |
| Server.RecordConsultation | samvidhanai/server.js:566-574 | the chat history grows by the one new entry; earlier entries and every other field of the user are kept |
| Server.Store.constructor | samvidhanai/database.js:145-149 | an empty, valid store |
| Server.Store.FindUserByEmail | samvidhanai/server.js:170 | finds a user with that email, or reports that there is none |
| Server.Store.FindLawyerByEmail | samvidhanai/server.js:284 | finds a lawyer with that email, or reports that there is none |
| Server.Store.SignupUser | samvidhanai/server.js:114-144 | refused when the email or phone is taken, with nothing changed; otherwise adds an unverified user holding both OTPs for ten minutes |
| Server.Store.VerifyUserOtp | samvidhanai/server.js:147-165 | 404 for an unknown id; otherwise applies the verification transition, with the intended OTP check, to that user only |
| Server.Store.LoginUser | samvidhanai/server.js:167-185 | 404 for an unknown email; otherwise the login gates, stamping `lastLogin` on success |
| Server.Store.ForgotPassword | samvidhanai/server.js:188-208 | 404 for an unknown email; otherwise stores a fresh email OTP valid for ten minutes |
| Server.Store.ResetUserPassword | samvidhanai/server.js:210-225 | 404 for an unknown email; otherwise the reset transition with the intended OTP check, so the new hash is stored only with a stored, submitted, unexpired OTP |
| Server.Store.RequestPasswordChange | samvidhanai/server.js:371-382 | issues a new email OTP to the signed-in user; a missing user is the unhandled refusal (an uncaught throw), with nothing changed |
| Server.Store.VerifyPasswordChange | samvidhanai/server.js:384-394 | the reset transition, with the intended OTP check, for the signed-in user; a missing user is the unhandled refusal (an uncaught throw), with nothing changed |
| Server.Store.SignupLawyer | samvidhanai/server.js:228-261 | refused when the email, phone or bar council number is taken; otherwise adds an unverified, unapproved, pending lawyer |
| Server.Store.VerifyLawyerOtp | samvidhanai/server.js:263-279 | 404 for an unknown id; otherwise the verification transition, with the intended OTP check, for that lawyer |
| Server.Store.LoginLawyer | samvidhanai/server.js:281-300 | 404 for an unknown email; otherwise the password, verification and approval gates in order |
| Server.Store.ApproveLawyer | samvidhanai/server.js:341-349 | 403 for a non-admin and 404 for an unknown id, with nothing changed; otherwise the lawyer becomes approved and active |
| Server.Store.SaveConsultation | samvidhanai/server.js:555-581 | the consultation is appended; if the user write succeeds, the chat entry is added and the answer is returned with the user's premium flag; otherwise the reply is the failure and the users are untouched |
| Server.Store.AnswerQuery | samvidhanai/server.js:525-590 | a failing model call, or a missing or invalid mode, leaves the store unchanged and fails; otherwise the normalised answer for the retrieved topic is stored as above |
| Server.Store.Consult | samvidhanai/server.js:501-591 | a blank, missing or falsy query gives 400, a truthy non-string query (a non-zero number, `true`, an object or an array) 500, a missing key 503 and an unknown user 404, each with the store unchanged; the model is called exactly when all four checks pass, and then the new state is as AnswerQuery says |
| Accounts.HttpStatus | samvidhanai/server.js:118-394 | every handled refusal has status 400, 403 or 404; only the unhandled one, a throw outside any `try`, has none, since what the client then gets depends on the web framework's version |
| Accounts.OtpChecksAgreeWhenStored | samvidhanai/server.js:215 | while an OTP is stored, the written comparison and the intended one agree |
| Accounts.ClearedOtpAcceptsNothing | samvidhanai/server.js:157 | the intended check accepts nothing once the OTP is cleared |
| Accounts.NewCredentials | samvidhanai/server.js:120-129 | a new account is unverified, has never logged in, and holds both OTPs until ten minutes from now |
| Accounts.TransitionsKeepInvariant | samvidhanai/server.js:114-225 | signup, verification, login, OTP issue and reset all keep "verified implies no phone OTP" |
| Accounts.ApproveKeepsInvariant | samvidhanai/server.js:341-349 | approval makes the lawyer approved and active, is idempotent and, like login, keeps the lawyer invariant |
| Accounts.VerifyOtpGates | samvidhanai/server.js:153-157 | expiry is checked before the codes; before expiry, verification succeeds exactly when both stored codes are submitted, and then it verifies, clears both OTPs and changes nothing else |
| Accounts.VerificationIsSingleUse | samvidhanai/server.js:157 | with the intended check, a second verification after a successful one fails |
| Accounts.UserLoginGates | samvidhanai/server.js:173-177 | a wrong password is refused first, then an unverified account; success exactly when both pass, and it stamps `lastLogin` |
| Accounts.LawyerLoginGates | samvidhanai/server.js:287-292 | password, then verification, then approval; success exactly when all three pass |
| Accounts.LawyerLifeCycle | samvidhanai/server.js:228-349 | a new lawyer cannot log in; verified in time, it is pending approval; once approved it logs in |
| Accounts.UserLifeCycle | samvidhanai/server.js:114-185 | a new user cannot log in until verified in time, and then can |
| Accounts.ResetPasswordGates | samvidhanai/server.js:215-219 | with the intended check, a reset succeeds exactly when an OTP is stored, submitted and unexpired; it changes only the hash and the OTP, and the OTP cannot be reused |
| Accounts.IssuedOtpResets | samvidhanai/server.js:194-219 | an OTP issued by forgot-password resets the password until ten minutes later, and not after |
| Accounts.NoResetAfterVerification | samvidhanai/server.js:157-219 | with the intended check, no reset is possible once verification has cleared the OTPs |
| Accounts.NullOtpResetsAfterVerificationAsWritten | samvidhanai/server.js:215-219 | as written, `otp: null` resets a just-verified account's password before the signup expiry |
| Accounts.NullOtpCounterexample | samvidhanai/server.js:215 | a concrete account on which the written check accepts a null OTP and the intended check refuses it |
| Accounts.NullEmailOtpVerifiesAsWritten | samvidhanai/server.js:154 | as written, an unverified account whose email OTP a reset consumed is verified with a null email code; the intended check refuses it |
| Accounts.NullReverificationAsWritten | samvidhanai/server.js:154-161 | as written, a verified account whose OTPs are cleared is verified again by two null codes before the signup expiry, unchanged, so the user route issues a new token (the lawyer route replies with a message only); the intended check refuses it |
| LawyerDashboard.ClientIds | samvidhanai/public/js/lawyer-dashboard.js:130-140 | the client ids, in first-message order, are distinct and are exactly the ids that occur in the messages |
| LawyerDashboard.Group | samvidhanai/public/js/lawyer-dashboard.js:130-140 | there is one entry per client id that occurs, each keyed by its own id |
| LawyerDashboard.GroupLatest | samvidhanai/public/js/lawyer-dashboard.js:135-137 | each client's shown message is one of its messages with the latest timestamp, the first such in load order |
| LawyerDashboard.GroupUnread | samvidhanai/public/js/lawyer-dashboard.js:133-138 | a client is flagged unread exactly when one of its messages is neither read nor replied to |
| LawyerDashboard.GroupName | samvidhanai/public/js/lawyer-dashboard.js:133 | the name is the display name of the client's first message |
| LawyerDashboard.InsertByRecency | samvidhanai/public/js/lawyer-dashboard.js:142 | insertion keeps the elements as a multiset and keeps the list sorted newest first |
| LawyerDashboard.SortByRecency | samvidhanai/public/js/lawyer-dashboard.js:142 | the sort is a permutation, sorted newest first |
| LawyerDashboard.SortIsStable | samvidhanai/public/js/lawyer-dashboard.js:142 | clients with equal timestamps keep their grouping order |
| LawyerDashboard.SortKeepsDistinct | samvidhanai/public/js/lawyer-dashboard.js:142 | sorting keeps the client ids distinct |
| LawyerDashboard.DistinctClientsAreIds | samvidhanai/public/js/lawyer-dashboard.js:318 | the distinct-client figure equals the number of grouped clients |
| LawyerDashboard.ClientListSpec | samvidhanai/public/js/lawyer-dashboard.js:121-162 | one entry per distinct client, covering exactly the clients that sent messages; each entry summarises its client; the list is newest first and stable |
| LawyerDashboard.UnreadBadgeMatchesFlags | samvidhanai/public/js/lawyer-dashboard.js:123-138 | the badge is non-zero exactly when some client entry is flagged unread |
| LawyerDashboard.MarkRead | samvidhanai/public/js/lawyer-dashboard.js:196 | exactly the selected client's messages get `isRead` set; the length, the order and every other message are kept |
| LawyerDashboard.MarkReadCount | samvidhanai/public/js/lawyer-dashboard.js:196 | the unread count drops by exactly the selected client's unread messages |
| LawyerDashboard.MarkReadEffect | samvidhanai/public/js/lawyer-dashboard.js:180-196 | after selection, the client has no unread message, every other client's unread state is unchanged, and only `isRead` fields change |
| LawyerDashboard.Dashboard.constructor | samvidhanai/public/js/lawyer-dashboard.js:8-9 | holds the loaded messages, with no client selected |
| LawyerDashboard.Dashboard.GroupByClient | samvidhanai/public/js/lawyer-dashboard.js:129-140 | the grouping loop builds exactly the specified groups, in first-message order |
| LawyerDashboard.Dashboard.RenderClientList | samvidhanai/public/js/lawyer-dashboard.js:121-162 | the badge is the unread count and the list is the specified client list |
| LawyerDashboard.Dashboard.SelectClient | samvidhanai/public/js/lawyer-dashboard.js:173-199 | selects the client, shows exactly its messages in order, and marks them read in place |
| AdminDashboard.FilterUsersSpec | samvidhanai/public/js/admin-dashboard.js:168-174 | a user is shown exactly when loaded and matching the name, email or phone search; the loaded order is kept |
| AdminDashboard.FilterLawyersSpec | samvidhanai/public/js/admin-dashboard.js:213-220 | a lawyer is shown exactly when loaded, matching the search and in the tab; the order is kept |
| AdminDashboard.EmptySearchMatchesNamed | samvidhanai/public/js/admin-dashboard.js:250-252 | the empty search matches every row that has a name |
| AdminDashboard.EmptySearchShowsAllUsers | samvidhanai/public/js/admin-dashboard.js:168-174 | with no search text, every named user is shown |
| AdminDashboard.TabsPartition | samvidhanai/public/js/admin-dashboard.js:219 | for any search, the pending and approved tabs together hold the all tab |
| AdminDashboard.TotalQueriesAppend | samvidhanai/public/js/admin-dashboard.js:91 | the query total distributes over concatenation of user lists |
| AdminDashboard.TotalQueriesBounds | samvidhanai/public/js/admin-dashboard.js:91 | the total counts every user's history, and is zero exactly when no user has an entry |
| AdminDashboard.RecentUsers | samvidhanai/public/js/admin-dashboard.js:93 | the first min(5, n) users, in order |
| AdminDashboard.RecentUsersSpec | samvidhanai/public/js/admin-dashboard.js:93 | all users when there are at most five; otherwise the first five, followed by the rest |
| AdminDashboard.LawyerFiguresAgreeWithTabs | samvidhanai/public/js/admin-dashboard.js:87 | "total lawyers" is the approved tab with no search, and with the pending tab it makes up all lawyers |
| AdminDashboard.DeletionFiguresAgree | samvidhanai/public/js/admin-dashboard.js:89-95 | the deletion figure is the length of the deletion list, which holds exactly the flagged users and then the flagged lawyers; premium users are at most all users |
| AdminDashboard.PendingWithinPendingTab | samvidhanai/public/js/admin-dashboard.js:88 | the server's pending list, verified and unapproved, never outnumbers the pending tab |
| Seqs.FilterIsSubsequence | samvidhanai/public/js/admin-dashboard.js:170 | `filter` keeps order: its result is a subsequence of its input |
| Seqs.FilterPartition | samvidhanai/public/js/admin-dashboard.js:87-89 | a predicate and its negation split a list's length |

## Left out

- The prompt and the generative-model call are a function parameter
  `generate`. The prompt text is not modelled. `None` stands for a call that
  throws.
- `JSON.parse` is a function parameter `parse`. `None` also covers input
  that parses to JSON `null`, whose property read throws inside the same
  `try`.
- `citations || []` treats only a missing citations field as empty. Other
  falsy values of that field are not modelled.
- bcrypt is abstracted. Hashes are given strings, and `bcrypt.compare` is a
  function parameter `checkPassword`.
- JWT signing and `authMiddleware` are left out. The caller's user id and
  admin flag are parameters.
- `generateOTP` values are parameters, and so are the periodic clock reads.
  Dates are integers of milliseconds. One time `now` stamps both the
  consultation and the chat entry. Invalid dates (NaN) are not modelled.
- MongoDB is abstracted. Collections are maps and a sequence. Generated ids
  are parameters, required to be fresh. A failed write is a boolean
  parameter. Save errors of the account routes (500) are not modelled.
  Signup's uniqueness query is modelled; the Aadhaar-number index is not.
- The catalog's long canned `response` texts are shortened to their title
  line. They only feed the prompt. Keywords and citations are kept as
  written.
- `toLowerCase` is modelled for ASCII letters only. The catalog's Devanagari
  keywords have no case, so they stay unchanged, as they do under
  `toLowerCase`. The difference is cased non-ASCII letters in a query: for
  example, JavaScript lower-cases U+212A KELVIN SIGN to "k", and the model
  leaves it unchanged.
- `JSON.parse` results are typed. `ParsedReply` holds a string or nothing
  for `response` and a string list or nothing for `citations`. A reply whose
  `response` or `citations` is an object makes Mongoose's cast fail at
  `consultation.save()`, so the route answers 500 after the model call
  (server.js:555-564). A number is stored as a string but sent back as a
  number. Neither case can be expressed here.
- Ids are plain strings. A malformed id makes `findById` throw a cast error.
  In `verify-otp` that is caught and answered with 500 and the error message
  (server.js:162-164). In `approve-lawyer` (server.js:343) nothing catches
  it. The model answers 404 for every id it does not hold.
- Server.Store.VerifyUserOtp: applies the intended OTP check. The route compares
  with `!==` (server.js:154), as `Accounts.VerifyOtpAsWritten` does. See
  Findings.
- Server.Store.VerifyLawyerOtp: applies the intended OTP check. The route compares
  with `!==` (server.js:269), as `Accounts.VerifyOtpAsWritten` does. See
  Findings.
- Server.Store.ResetUserPassword: applies the intended OTP check. The route
  compares with `!==` (server.js:215), as `Accounts.ResetPasswordAsWritten`
  does. See Findings.
- Server.Store.VerifyPasswordChange: applies the intended OTP check. The route
  compares with `!==` (server.js:387), as `Accounts.ResetPasswordAsWritten`
  does. See Findings.
- The change-password routes throw outside any `try` for a missing user
  (server.js:371-394). No error handler of the application catches this, so
  the client's outcome depends on the Express version: no reply, or a
  default 500 page. The model records only the refusal `Unhandled`.
- The pending-lawyers figure of `loadStats` is its fetched list, passed as a
  parameter. `ServerPending` gives the server's filter.
- Socket.IO chat, e-mail and SMS, payments, the profile, consent and
  deletion routes, `dashboard.js` and `main.js` are not part of this model.
  Neither is DOM rendering: HTML strings, time formatting, escaping and the
  lawyer dashboard's `filterClients` search over rendered names.

## Findings

| source | as written | input that shows it | evidently intended | confidence | as-written member | corrected member |
|---|---|---|---|---|---|---|
| samvidhanai/server.js:215 (and 387) | the reset is refused when `user.emailOtp !== otp`; after `verify-otp` or a completed reset sets the OTP to `null`, a body with `otp: null` passes | sign up, verify with both codes at 1 s, then `reset-password` with `otp: null` at 2 s: the password is replaced without any code | a reset needs a stored OTP, and the request must carry it | not executed | Accounts.NullOtpCounterexample | Accounts.NoResetAfterVerification |
| samvidhanai/server.js:154 | `verify-otp` compares the email code with `!==`, so a cleared email OTP matches `null` | an unverified account resets its password with the forgot-password OTP, then verifies with `emailOtp: null` and the phone code | both stored codes are required and submitted | not executed | Accounts.NullEmailOtpVerifiesAsWritten | Accounts.VerifyOtpGates |
| samvidhanai/server.js:154 (and 269) | after a successful verification both OTPs are `null`, and `null !== null` is false, so `verify-otp` with both codes `null` succeeds again: the user route at 154 issues a new token (line 160), and the lawyer route at 269 succeeds with a message only, no token | verify a user account, then send `verify-otp` with its id and `emailOtp: null, phoneOtp: null` before the signup OTP expires: a new session token, with no password and no code (the lawyer route answers success without a token) | verification needs both stored codes, and can happen only once | not executed | Accounts.NullReverificationAsWritten | Accounts.VerificationIsSingleUse |
