# Account lifecycle of the travel-sharing backend, in Dafny

This project models the account core of an Express/Mongoose backend. That
covers the user record and its document methods, and the two controllers
that create and verify accounts. It also covers the privacy filter that
decides what one user sees of another, and the request guards.

- **User record** (`UserModel`): the fields the lifecycle reads and writes.
  Also modelled:
  - the `isLocked` / `incLoginAttempts` lockout rule: 5 failures lock the
    account for 2 hours;
  - the pre-save hook that recomputes the trust score as 20 + 30 + 50 for
    the email, phone and identity flags;
  - the `age` and `fullAddress` virtuals.
- **Collection** (`Store`): the `User` collection as a class with a map
  from ids to documents. It keeps three invariants: unique email, nickname
  and phone number; the trust score as the hook computes it; and every
  single-use secret stored with its expiry. `findOne`, `create`, `save`
  (with its hook), `incLoginAttempts` and `updateLastActive` are methods
  on it.
- **Signup rules** (`SignupRules`): the ordered request checks of
  `signup`, which give the first failing check, and the field a 409
  conflict reports.
- **Shared-code controller** (`AuthControllers`): the handlers of the
  controller with one shared verification code:
  - availability lookup and signup;
  - verification by code, by email and by phone;
  - the three resend handlers;
  - sign-in with lockout;
  - forgot / verify / reset password.

  Each handler is a method on the collection. Its postcondition gives the
  new collection as a pure function of the record it read. The lemmas are
  about those functions.
- **Per-channel controller** (`SignupControllers`): the second controller,
  which stores one secret per channel (an email token or an SMS code)
  instead of one shared code.
- **Profile filter** (`ProfileFilter`): `filterProfileByPrivacy` on a plain
  document, written as a map from keys to JSON-like values. It is proved
  equal to a declarative projection, and the privacy toggles are proved
  about that projection.
- **Middleware** (`Middleware`): bearer-token extraction, `protect`,
  `optionalAuth` and `authorize`.

Inputs from outside the model are parameters:
- the clock is `now`, in milliseconds since the epoch, or `today`, a
  calendar date;
- generated codes and tokens are strings passed in;
- whether an email or SMS was delivered is a predicate `delivered`;
- `user.matchPassword`, which the user schema does not define, is the
  parameter `passwordMatches` (stored password, then candidate);
- `jwt.verify` is `verify`, which returns either a decoded id or the name
  of the error it throws.

## Model

| member | source | states |
|---|---|---|
| UserModel.TrustScore | web/backend/src/models/User.js:703-712 | the score lies in 0..100; it is 0 exactly when no flag is set and 100 exactly when all three are |
| UserModel.PreSave | web/backend/src/models/User.js:703-712 | only the trust score changes, and it is recomputed exactly when `verification` was modified |
| UserModel.PreSaveKeepsScoreConsistent | web/backend/src/models/User.js:117-122 | an edit that does not write the score saves a record whose score is the hook's, within 0..100 |
| UserModel.LoginAttemptsUpdate | web/backend/src/models/User.js:673-690 | an expired lock restarts the count; otherwise the count goes up and a 2-hour lock is set exactly when the 5th attempt is reached on an unlocked account |
| UserModel.IncLoginAttempts | web/backend/src/models/User.js:673-690 | only the counter and the lock change; the result is locked exactly when the account was locked or the 5th failure is reached, and a new lock lasts 2 hours |
| UserModel.Age | web/backend/src/models/User.js:628-643 | the `age` virtual is null exactly when there is no date of birth |
| UserModel.AgeReachedIff | web/backend/src/models/User.js:633-642 | age >= n exactly when today is on or after the n-th anniversary |
| UserModel.AgeOnBirthday | web/backend/src/models/User.js:635-640 | the age is n on the n-th birthday, and n-1 on every day from the (n-1)-th birthday up to the n-th |
| UserModel.FullAddress | web/backend/src/models/User.js:617-625 | "" without an address or when all four parts are empty, otherwise not empty; its content is stated by FullAddressParts |
| UserModel.FullAddressAllParts | web/backend/src/models/User.js:622-624 | with all parts present the result is street, city, postal code and country joined by ", " |
| UserModel.FullAddressParts | web/backend/src/models/User.js:622-624 | the result keeps each of street, city, postal code and country exactly when it is non-empty, in that order, joined by ", " |
| UserModel.FullAddressStreetAndCountry | web/backend/src/models/User.js:622-624 | with only street and country given the result is "street, country" |
| UserModel.FullAddressIgnoresState | web/backend/src/models/User.js:622 | the `state` field never affects the full address |
| UserModel.FewFailuresDoNotLock | web/backend/src/models/User.js:681-689 | fewer than 5 failures from an unlocked record only count, and never lock |
| UserModel.FifthFailureLocks | web/backend/src/models/User.js:682-686 | the 5th failure locks a clean record until 2 hours after it, and it is locked at every instant before then |
| UserModel.FailedAttemptsSplit | web/backend/src/models/User.js:673-690 | a run of failures splits into two consecutive runs |
| Store.SafeEditKeepsInvariant | web/backend/src/models/User.js:12-38 | an edit that keeps email, nickname and phone keeps them unique across the collection |
| Store.UserCollection.constructor | web/backend/src/models/User.js:714 | an empty collection satisfies the invariant |
| Store.UserCollection.FindOne | web/backend/src/controllers/authControllers.js:26 | returns a matching document if and only if one exists |
| Store.UserCollection.Create | web/backend/src/controllers/authControllers.js:150-164 | adds the document under a new id and changes nothing else; the invariant is kept |
| Store.UserCollection.Save | web/backend/src/models/User.js:703-712 | stores the hook's result for that id only; the invariant is kept |
| Store.UserCollection.IncLoginAttempts | web/backend/src/models/User.js:673-690 | writes exactly `IncLoginAttempts` of the stored record, bypassing the hook |
| Store.UserCollection.UpdateLastActive | web/backend/src/models/User.js:693-696 | stamps `lastActive` and nothing else |
| SignupRules.StripPhonePunctuation | web/backend/src/controllers/authControllers.js:90 | the result has no whitespace, parentheses or '-', is never longer, and is the input when the input had none |
| SignupRules.StripDistributes | web/backend/src/controllers/authControllers.js:90 | stripping distributes over concatenation |
| Common.Utf16Length | web/backend/src/controllers/authControllers.js:72 | `.length` counts UTF-16 units: between the number of characters and twice it, and equal to it when no character lies above U+FFFF |
| SignupRules.ValidateSignup | web/backend/src/controllers/authControllers.js:47-115 | None exactly when all seven checks pass; otherwise the first failing check, in source order; the password length counts UTF-16 code units |
| SignupRules.AgeBoundary | web/backend/src/controllers/authControllers.js:98-114 | the age check passes exactly when today is on or after the 18th birthday |
| SignupRules.AstralPasswordIsLongEnough | web/backend/src/controllers/authControllers.js:72 | three characters above U+FFFF are six UTF-16 units and pass the length check |
| SignupRules.ExampleEmailIsShaped | web/backend/src/controllers/authControllers.js:63-64 | "ana@x.com" matches the email pattern |
| SignupRules.EmailWithoutDotIsRefused | web/backend/src/controllers/authControllers.js:63-64 | "ana@x" does not match the email pattern |
| SignupRules.ExamplePhoneIsValid | web/backend/src/controllers/authControllers.js:89-90 | "+15551234567" matches the phone pattern |
| SignupRules.ExampleNicknameIsShaped | web/backend/src/controllers/authControllers.js:80-81 | "ana_99" matches the nickname pattern |
| SignupRules.ExampleRequestIsValid | web/backend/src/controllers/authControllers.js:47-115 | a complete example request passes every check |
| SignupRules.ReportedConflict | web/backend/src/controllers/authControllers.js:125-145 | None exactly when the document does not collide; otherwise the first of email, nickname, phone on which it collides |
| AuthControllers.CheckAvailability | web/backend/src/controllers/authControllers.js:6-41 | 400 for a missing input or an unknown field; otherwise available exactly when no document has that value |
| AuthControllers.NewAccount | web/backend/src/controllers/authControllers.js:147-164 | lower-cased identity, pending status, onboarding step 0, a code for the chosen channel valid 30 minutes, no flags, unlocked; well formed exactly when the gender is one the schema admits |
| AuthControllers.Signup | web/backend/src/controllers/authControllers.js:43-218 | 400 exactly when a check fails, naming the first; 409 naming a colliding document's field; 500 with nothing stored exactly when the request is otherwise valid but its gender is outside the schema enum; otherwise created, and only the new document is added; delivery does not change the outcome |
| AuthControllers.MarkVerified | web/backend/src/controllers/authControllers.js:248-263 | sets only the flag of the given channel and `verifyAt`, clears code, expiry and method, and promotes pending to active |
| AuthControllers.VerifiedRecord | web/backend/src/controllers/authControllers.js:248-263 | the saved record keeps a consistent trust score |
| AuthControllers.VerifyMatching | web/backend/src/controllers/authControllers.js:231-263 | fails exactly when no document matches; otherwise only the matched document changes, to its verified record |
| AuthControllers.VerifyCode | web/backend/src/controllers/authControllers.js:220-290 | 400 exactly for missing input; with both inputs, verified exactly when a live code matches the email or phone, and then only that document changes, getting the recorded channel's flag; otherwise invalid and nothing changes |
| AuthControllers.VerifyEmail | web/backend/src/controllers/authControllers.js:292-353 | 400 exactly for missing input; with both inputs, verified exactly when a live code matches the email, and then only that document changes, getting the email flag; otherwise invalid and nothing changes |
| AuthControllers.VerifyPhone | web/backend/src/controllers/authControllers.js:355-415 | 400 exactly for missing input; with both inputs, verified exactly when a live code matches the phone number, and then only that document changes, getting the phone flag; otherwise invalid and nothing changes |
| AuthControllers.VerifyPhoneAsWrittenNeverMatches | web/backend/src/controllers/authControllers.js:366-369 | a code just issued matches under the intended lookup and never under the written one |
| AuthControllers.IssueCode | web/backend/src/controllers/authControllers.js:449-455 | replaces the code and sets its expiry 30 minutes ahead, nothing else |
| AuthControllers.IssuedCodeLiveIff | web/backend/src/controllers/authControllers.js:231-239 | an issued code verifies exactly the equal string, strictly before it expires |
| AuthControllers.ResendInvalidatesPreviousCode | web/backend/src/controllers/authControllers.js:449-455 | after a resend the previous code verifies through none of the three lookups |
| AuthControllers.SignupThenVerifyActivates | web/backend/src/controllers/authControllers.js:147-164 | a signup followed by verification within 30 minutes activates the account, sets only the chosen flag and gives a score of 20 or 30 |
| AuthControllers.VerifyWithoutRecordedChannelSetsNoFlag | web/backend/src/controllers/authControllers.js:248-261 | with no recorded method no flag is set, yet a pending account becomes active |
| AuthControllers.ResendCodeAsWritten | web/backend/src/controllers/authControllers.js:417-484 | as written every request with an identifier gets a 500 |
| AuthControllers.ResendCodeAsWrittenNeverSends | web/backend/src/controllers/authControllers.js:428-432 | an account eligible for a resend still gets the 500 as written |
| AuthControllers.ResendVerificationCode | web/backend/src/controllers/authControllers.js:417-484 | 400 exactly for a missing identifier; 404 exactly when no document matches; a found document is refused exactly when both channels are verified, and otherwise gets a new code, with 500 exactly when delivery fails; nothing is written except the new code |
| AuthControllers.ResendVerificationEmail | web/backend/src/controllers/authControllers.js:486-536 | 400 exactly for a missing email; 404 exactly when no document has it; a found document is refused exactly when its email is verified, and otherwise gets a new code, with 500 exactly when delivery fails; nothing else is written |
| AuthControllers.ResendVerificationPhone | web/backend/src/controllers/authControllers.js:538-587 | 400 exactly for a missing phone number; 404 exactly when no document has it; a found document is refused exactly when its phone is verified, and otherwise gets a new code, with 500 exactly when delivery fails; nothing else is written |
| AuthControllers.SuspendedPassesAsWritten | web/backend/src/controllers/authControllers.js:625 | the written status test misses "suspend" and agrees on every other status |
| AuthControllers.SigninAttempt | web/backend/src/controllers/authControllers.js:617-672 | 423 exactly when locked; 403 exactly for a refused status when unlocked; 401 with one more failure counted exactly for a wrong password; 403 pending, naming the recorded channel, exactly for the right password on a pending account; success exactly for the right password on an active account, which resets the counter and stamps login and activity |
| AuthControllers.Signin | web/backend/src/controllers/authControllers.js:589-715 | 400 for missing input; 401 when no undeleted document matches; otherwise the response and the written record are those of SigninAttempt |
| AuthControllers.SigninAsWritten | web/backend/src/controllers/authControllers.js:600-617 | as written every request with both fields gets a 500 |
| AuthControllers.SigninAsWrittenNeverSignsIn | web/backend/src/controllers/authControllers.js:600-617 | an active, unlocked account with the right password signs in as intended, yet gets the 500 as written |
| AuthControllers.WrongSigninsCountFailures | web/backend/src/controllers/authControllers.js:645-650 | up to five wrong passwords are exactly that many `incLoginAttempts` calls |
| AuthControllers.FiveWrongPasswordsLockOut | web/backend/src/controllers/authControllers.js:617-623 | after five wrong passwords even the right one gets 423 for two hours |
| AuthControllers.IssueResetCode | web/backend/src/controllers/authControllers.js:743-746 | stores the reset code with an expiry 30 minutes ahead; what that code then opens is stated by IssuedResetCodeLiveIff |
| AuthControllers.IssuedResetCodeLiveIff | web/backend/src/controllers/authControllers.js:743-744 | an issued reset code matches the reset lookup exactly for the account's own email, the same code, an undeleted account and an instant before the 30 minutes are over |
| AuthControllers.ForgotPassword | web/backend/src/controllers/authControllers.js:717-770 | 400 exactly for a missing email; the same 200 notice whether or not the email is known; an undeleted account with that email always gets a new reset code, and nothing else changes; 500 only when delivery fails |
| AuthControllers.VerifyResetCode | web/backend/src/controllers/authControllers.js:772-809 | valid exactly when an undeleted document holds that live reset code |
| AuthControllers.ApplyReset | web/backend/src/controllers/authControllers.js:843-848 | new password, reset code and expiry cleared, counter zeroed, lock lifted |
| AuthControllers.ResetCodeIsSingleUse | web/backend/src/controllers/authControllers.js:843-848 | a used reset code no longer matches, and the account is unlocked |
| AuthControllers.ResetPassword | web/backend/src/controllers/authControllers.js:811-862 | 400 for missing input; with all inputs, exactly one of: too short (under 6 UTF-16 units), no live code, or reset; only a reset writes, and only ApplyReset of the matched document |
| SignupControllers.NewTokenAccount | web/backend/src/controllers/signupControllers.js:147-173 | the secret is stored in the chosen channel's own field with a 30-minute expiry and the other channel's field stays empty; no shared code or method |
| SignupControllers.Signup | web/backend/src/controllers/signupControllers.js:43-227 | 400 exactly when a check fails, naming the first; 409 naming a colliding document's field; otherwise created exactly when nothing collides (no gender is stored, so no 500), and only NewTokenAccount is added |
| SignupControllers.MarkEmailTokenVerified | web/backend/src/controllers/signupControllers.js:252-261 | sets the email flag and `verifyAt`, spends the email token and promotes pending |
| SignupControllers.MarkPhoneTokenVerified | web/backend/src/controllers/signupControllers.js:313-322 | sets the phone flag and `verifyAt`, spends the SMS code and promotes pending |
| SignupControllers.VerifyEmail | web/backend/src/controllers/signupControllers.js:229-287 | 400 exactly for a missing token; otherwise verified exactly when a live token matches, and then only that document changes; otherwise invalid and nothing changes |
| SignupControllers.VerifyPhone | web/backend/src/controllers/signupControllers.js:289-348 | 400 exactly for missing input; with both inputs, verified exactly when a live SMS code matches the phone number, and then only that document changes; otherwise invalid and nothing changes |
| SignupControllers.TokenVerificationsCommute | web/backend/src/controllers/signupControllers.js:252-322 | verifying one channel leaves the other's secret intact, and both orders give the same record with both flags |
| SignupControllers.SignupThenFollowTokenActivates | web/backend/src/controllers/signupControllers.js:147-261 | an emailed token followed within 30 minutes activates the account with score 20 |
| SignupControllers.TokenAccountNotVerifiableByCode | web/backend/src/controllers/signupControllers.js:162-173 | a document created here never matches the shared-code lookup |
| SignupControllers.IssueEmailToken | web/backend/src/controllers/signupControllers.js:379-383 | replaces the email token and its expiry only |
| SignupControllers.IssuePhoneToken | web/backend/src/controllers/signupControllers.js:429-433 | replaces the SMS code and its expiry only |
| SignupControllers.ResendReplacesOnlyItsChannel | web/backend/src/controllers/signupControllers.js:379-433 | after a resend the old secret no longer verifies its channel, and the other channel is unaffected |
| SignupControllers.ResendVerificationEmail | web/backend/src/controllers/signupControllers.js:350-400 | 400 exactly for a missing email; 404 exactly when no document has it; a found document is refused exactly when its email is verified, and otherwise gets a new token, with 500 exactly when delivery fails |
| SignupControllers.ResendVerificationPhone | web/backend/src/controllers/signupControllers.js:402-451 | 400 exactly for a missing phone number; 404 exactly when no document has it; a found document is refused exactly when its phone is verified, and otherwise gets a new SMS code, with 500 exactly when delivery fails |
| ProfileFilter.DeleteField | web/backend/src/utils/profileFilter.js:40 | removes exactly that field from an object and leaves any other value alone |
| ProfileFilter.PrivacyOf | web/backend/src/utils/profileFilter.js:8 | a missing or falsy `privacy` reads as an empty object |
| ProfileFilter.PrivateStub | web/backend/src/utils/profileFilter.js:11-19 | exactly five keys: four copied from the document and the private message |
| ProfileFilter.Scrubbed | web/backend/src/utils/profileFilter.js:40-43 | nested scrubbing keeps every key |
| ProfileFilter.RemoveSensitive | web/backend/src/utils/profileFilter.js:39-54 | removes the fourteen sensitive keys and the two nested fields; throws exactly when `verification` is null or undefined |
| ProfileFilter.FilterProfileByPrivacy | web/backend/src/utils/profileFilter.js:1-57 | equals the declarative projection `Project` |
| ProfileFilter.TogglesThenSensitive | web/backend/src/utils/profileFilter.js:21-54 | toggle deletions followed by sensitive deletions remove exactly the hidden keys |
| ProfileFilter.OwnerSeesEverything | web/backend/src/utils/profileFilter.js:2-6 | the owner gets the document unchanged; no viewer is treated like any other non-owner |
| ProfileFilter.PrivateProfileIsStub | web/backend/src/utils/profileFilter.js:11-19 | a non-owner of a private profile sees exactly the stub |
| ProfileFilter.ShownKeys | web/backend/src/utils/profileFilter.js:21-54 | a key is shown exactly when present and not hidden, unchanged unless it is one of the two scrubbed objects |
| ProfileFilter.EmailToggle | web/backend/src/utils/profileFilter.js:21-23 | the email is shown, unchanged, exactly when `showEmail` is truthy |
| ProfileFilter.PhoneToggle | web/backend/src/utils/profileFilter.js:25-27 | the phone number is shown, unchanged, exactly when `showPhone` is truthy |
| ProfileFilter.LocationToggle | web/backend/src/utils/profileFilter.js:29-32 | address and current location are shown exactly when `showLocation` is truthy |
| ProfileFilter.TripsToggle | web/backend/src/utils/profileFilter.js:34-37 | trips and saved trips are shown exactly when `showTrips` is truthy |
| ProfileFilter.MissingPrivacyHidesAll | web/backend/src/utils/profileFilter.js:8 | without a `privacy` object every toggled field is hidden |
| ProfileFilter.SensitiveFieldsNeverShown | web/backend/src/utils/profileFilter.js:39-54 | whatever the toggles, no sensitive key, identity document or licence number is shown |
| ProfileFilter.FilterOnlyRemoves | web/backend/src/utils/profileFilter.js:9-56 | the result's keys are among the document's, and kept values are unchanged apart from the two scrubbed objects |
| ProfileFilter.PublicHidesTheSame | web/backend/src/utils/profileFilter.js:11-37 | "friends" and "public" hide the same keys |
| ProfileFilter.FriendsLikePublic | web/backend/src/utils/profileFilter.js:11 | a "friends" profile is filtered exactly like a "public" one, apart from the `privacy` value |
| ProfileFilter.SavedTripsShownAsWritten | web/backend/src/utils/profileFilter.js:34-37 | as written, hidden trips still leave `savedTrips` visible; as intended they do not |
| Middleware.BearerToken | web/backend/src/middleware/middleware.js:8-10 | a token exactly when the header starts with "Bearer" and its second space-separated segment is not empty; that segment is the token |
| Middleware.BearerRoundTrip | web/backend/src/middleware/middleware.js:8-10 | "Bearer " followed by a token without spaces yields that token |
| Middleware.OtherSchemeHasNoToken | web/backend/src/middleware/middleware.js:8 | a "Basic" header yields no token |
| Middleware.WithoutPassword | web/backend/src/middleware/middleware.js:22 | the attached record has an empty password and otherwise equals the stored one: putting the password back gives the stored record |
| Middleware.ProtectDecision | web/backend/src/middleware/middleware.js:4-73 | each rung of the ladder as an exact condition: 401 without a token; 401 for an expired or malformed token; 500 for any other token error; 401 for an unknown id; 403 for a deleted account before any status test; 403 naming the status of an account that is not active; admitted otherwise |
| Middleware.Request.constructor | web/backend/src/middleware/middleware.js:4 | a request starts with no user attached and `next` not called |
| Middleware.Protect | web/backend/src/middleware/middleware.js:4-73 | answers ProtectDecision; only on admission does it attach the user and call `next` |
| Middleware.OptionalUser | web/backend/src/middleware/middleware.js:87-93 | only a stored, undeleted, active account is attached |
| Middleware.OptionalAgreesWithProtect | web/backend/src/middleware/middleware.js:75-105 | `optionalAuth` attaches exactly the accounts `protect` admits |
| Middleware.OptionalAuth | web/backend/src/middleware/middleware.js:75-105 | always calls `next`; sets the user only for an admitted account |
| Middleware.SomeRoleHeld | web/backend/src/middleware/middleware.js:116 | true exactly when some required role is held |
| Middleware.RolesMeet | web/backend/src/middleware/middleware.js:116 | some required role is held exactly when the two role sets intersect |
| Middleware.Authorize | web/backend/src/middleware/middleware.js:107-127 | 401 exactly without a user; allowed exactly when the role sets intersect; otherwise 403 naming the required roles |
| Middleware.NoRequiredRoleForbidsAll | web/backend/src/middleware/middleware.js:116-123 | with no required role every user is refused |
| Middleware.MoreRolesNeverRefuse | web/backend/src/middleware/middleware.js:116 | adding required roles never refuses an allowed request |

## Left out

- Sending email and SMS and JWT verification are not modelled. They appear as the parameters `delivered` and `verify`. `matchPassword` is called at web/backend/src/controllers/authControllers.js:646 but is not defined in web/backend/src/models/User.js; it appears as the parameter `passwordMatches`. Passwords are stored as given, since no hashing hook exists. `generateToken`, the welcome email and the JWT returned by signup and sign-in are not modelled.
- Code and token generation (`generateVerificationCode`, `generateVerificationToken`) is not modelled; the codes are parameters.
- `Date.now()` and `new Date()` are the parameters `now` and `today`. Dates are (year, month, day) triples: no date-string parsing, no time zones, no invalid dates.
- `toLowerCase` is modelled for ASCII letters only. The schema's `trim` is not modelled.
- Mongoose strict mode is not modelled. The schema does not declare `verificationCode`, `verificationExpires`, `verificationMethod` or the two per-channel token fields. The model treats them as stored.
- Concurrency is not modelled. Each handler runs atomically, so a race between the uniqueness lookup and `create` is not covered.
- The catch-all 500 answers for database failures (a malformed id in `findById`, say) are not modelled. Only the 500s the handlers reach on their own are.
- Response bodies are modelled as a status and a message only. The user summaries and `field` arrays are not modelled.
- The `overallRating` virtual and `getMe` are not part of this model.
- `isOwner` (web/backend/src/middleware/middleware.js:129-145) is not part of this model.
- `selectPublicFields` is a constant projection string and is not modelled.
- The `checkAvailability` of signupControllers.js is identical to the one in authControllers.js, so only `AuthControllers.CheckAvailability` models it.
- ProfileFilter.FilterProfileByPrivacy: several consecutive `delete` statements are grouped into one set subtraction. The order of deletions is not modelled.
- ProfileFilter.RemoveSensitive: only a `verification` value of null or undefined throws. Numbers are integers, so NaN does not arise.
- Middleware.Protect: `req.user` is the stored record without its password, not a live Mongoose document.

## Findings

| source | as written | input that shows it | evidently intended | confidence | as-written member | corrected member |
|---|---|---|---|---|---|---|
| web/backend/src/controllers/authControllers.js:600-617 | `User.findOne(...)` is not awaited and `user.isLock()` does not exist, so the handler throws; `user.incLoginAttemps()` at line 649 is misspelled too | any sign-in with an identifier and a password | await the lookup, call `isLocked()` and `incLoginAttempts()`, define the missing `matchPassword` (line 646), then run the lock / status / password / pending checks | high (not executed) | AuthControllers.SigninAsWrittenNeverSignsIn | AuthControllers.Signin |
| web/backend/src/controllers/authControllers.js:625 | compares `accountStatus` with "suspended" | an account with status "suspend" and the right password | refuse "suspend", the schema's enum value | high (not executed) | AuthControllers.SuspendedPassesAsWritten | AuthControllers.SigninAttempt |
| web/backend/src/controllers/authControllers.js:428-432 | the lookup reads `email`, which is not defined in the handler | any resend request with an identifier | look up the identifier as an email or a phone number | high (not executed) | AuthControllers.ResendCodeAsWrittenNeverSends | AuthControllers.ResendVerificationCode |
| web/backend/src/controllers/authControllers.js:366-369 | queries `verificationToken: code`, a field nothing writes | a phone number with a code just issued for it | query `verificationCode` | medium (not executed; relies on the query filter being applied as written) | AuthControllers.VerifyPhoneAsWrittenNeverMatches | AuthControllers.VerifyPhone |
| web/backend/src/utils/profileFilter.js:36 | deletes `saveTrips` | a public profile with `showTrips` false and a `savedTrips` list | delete `savedTrips` | high (not executed) | ProfileFilter.SavedTripsShownAsWritten | ProfileFilter.FilterProfileByPrivacy |
