/** The handlers of web/backend/src/controllers/authControllers.js: account
    availability, signup with one verification code, code verification,
    resending, sign-in and password reset. Each handler is a method over the
    `User` collection; the record it writes is given by a function of the
    record it read, and the lemmas below are about those functions. */
module AuthControllers {
  import opened Common
  import opened UserModel
  import opened Store
  import opened SignupRules

  // ================================================================ checkAvailability

  datatype AvailabilityOutcome = FieldAndValueRequired | InvalidField | Availability(available: bool)
  {
    function HttpStatus(): nat
    {
      if Availability? then 200 else 400
    }
  }

  const AvailabilityFields: seq<string> := ["nickname", "email", "phoneNumber"]

  /** The lookup `{[field]: value}`, with `value` lower-cased for email and nickname. */
  predicate AvailabilityFilter(a: Account, field: string, value: string)
  {
    if field == "email" then a.email == ToLower(value)
    else if field == "nickname" then a.nickname == ToLower(value)
    else a.phoneNumber == value
  }

  /** Never changes the collection; soft-deleted documents still make a
      value unavailable, as the lookup does not filter on `deletedAt`. */
  method CheckAvailability(store: UserCollection, field: string, value: string) returns (r: AvailabilityOutcome)
    ensures field == "" || value == "" ==> r == FieldAndValueRequired
    ensures field != "" && value != "" && field !in AvailabilityFields ==> r == InvalidField
    ensures field in AvailabilityFields && value != "" ==>
              r.Availability? &&
              (r.available <==> forall id :: id in store.users ==> !AvailabilityFilter(store.users[id], field, value))
  {
    if field == "" || value == "" {
      return FieldAndValueRequired;
    }
    if field !in AvailabilityFields {
      return InvalidField;
    }
    var found := store.FindOne((a: Account) => AvailabilityFilter(a, field, value));
    r := Availability(found.None?);
  }

  // ================================================================ signup

  /** `RegistrationError` is the 500 of the handler's catch, reached when
      `create` rejects the document. */
  datatype SignupOutcome =
    | Invalid(check: Check)
    | Conflict(field: ConflictField)
    | RegistrationError
    | Created(id: UserId, channel: Channel)
  {
    function HttpStatus(): nat
    {
      match this
      case Invalid(_) => 400
      case Conflict(_) => 409
      case RegistrationError => 500
      case Created(_, _) => 201
    }
  }

  /** Whether `create` accepts the request's gender: absent, or a value of
      the schema's enum. */
  predicate GenderAccepted(gender: string)
  {
    gender == "" || gender in GenderValues
  }

  /** The document `signup` creates: identity lower-cased, status pending,
      onboarding step 0, and one code for the chosen channel that is valid
      for 30 minutes. */
  function NewAccount(req: SignupRequest, code: string, now: nat): (a: Account)
    ensures a.nickname == ToLower(req.nickname) && a.email == ToLower(req.email)
    ensures a.phoneNumber == req.phoneNumber && a.password == req.password
    ensures a.status == Pending && a.onboardingStep == 0 && !a.isOnboarded
    ensures a.verificationCode == Some(code) && a.verificationExpires == Some(now + VerificationWindowMs)
    ensures a.verificationMethod == Some(ChosenChannel(req))
    ensures !a.verification.email && !a.verification.phone && !a.verification.identity
    ensures a.loginAttempts == 0 && !IsLocked(a, now) && a.deletedAt.None?
    ensures GenderAccepted(req.gender) <==> WellFormed(a)
  {
    Account(
      fullname := req.fullname,
      nickname := ToLower(req.nickname),
      email := ToLower(req.email),
      password := req.password,
      phoneNumber := req.phoneNumber,
      dateOfBirth := req.dateOfBirth,
      gender := if req.gender == "" then None else Some(req.gender),
      address := None,
      verification := Verification(false, false, false, None),
      trustScore := 0,
      roles := [],
      status := Pending,
      isOnboarded := false,
      onboardingStep := 0,
      deletedAt := None,
      lastLogin := None,
      lastActive := now,
      loginAttempts := 0,
      lockUntil := None,
      passwordResetToken := None,
      passwordResetExpires := None,
      verificationCode := Some(code),
      verificationExpires := Some(now + VerificationWindowMs),
      verificationMethod := Some(ChosenChannel(req)),
      emailVerificationToken := None,
      emailVerificationExpires := None,
      phoneVerificationToken := None,
      phoneVerificationExpires := None)
  }

  /** `signup`. The first failed check decides a 400; otherwise a document
      colliding on email, nickname or phone decides a 409 naming the field
      of highest priority on which that document collides; otherwise a
      gender outside the schema's enum makes `create` throw, a 500 with
      nothing stored; otherwise the account is created. Whether the code
      reaches the user (`delivered`) has no effect on the outcome. */
  method Signup(store: UserCollection, req: SignupRequest, today: Date, now: nat, code: string,
                delivered: Channel -> bool) returns (r: SignupOutcome)
    requires store.Valid()
    modifies store
    ensures store.Valid()
    ensures r.Invalid? <==> ValidateSignup(req, today).Some?
    ensures ValidateSignup(req, today).Some? ==> r == Invalid(ValidateSignup(req, today).value)
    ensures !r.Created? ==> store.users == old(store.users)
    ensures r.Conflict? ==>
              ValidateSignup(req, today).None? &&
              exists id :: id in old(store.users) && ReportedConflict(old(store.users)[id], req) == Some(r.field)
    ensures r == RegistrationError <==>
              ValidateSignup(req, today).None? && (forall id :: id in old(store.users) ==> !Collides(old(store.users)[id], req))
              && !GenderAccepted(req.gender)
    ensures r.Created? <==>
              ValidateSignup(req, today).None? && (forall id :: id in old(store.users) ==> !Collides(old(store.users)[id], req))
              && GenderAccepted(req.gender)
    ensures r.Created? ==>
              r.id !in old(store.users) && r.channel == ChosenChannel(req)
              && store.users == old(store.users)[r.id := NewAccount(req, code, now)]
  {
    var failed := ValidateSignup(req, today);
    if failed.Some? {
      return Invalid(failed.value);
    }
    var existing := store.FindOne((a: Account) => Collides(a, req));
    if existing.Some? {
      var field := ReportedConflict(store.users[existing.value], req);
      return Conflict(field.value);
    }
    if !GenderAccepted(req.gender) {
      return RegistrationError;
    }
    var doc := NewAccount(req, code, now);
    var id := store.Create(doc);
    // The verification message is sent through the chosen channel; a
    // failure is logged and the account is kept.
    var sent := delivered(ChosenChannel(req));
    r := Created(id, ChosenChannel(req));
  }

  // ================================================================ verification

  datatype VerifyOutcome = VerifyInputRequired | InvalidOrExpired | Verified(id: UserId)
  {
    function HttpStatus(): nat
    {
      if Verified? then 200 else 400
    }
  }

  /** The flag a successful verification sets: the one the document records
      as pending (`verifyCode`), or a fixed one (`verifyEmail`, `verifyPhone`). */
  datatype ChannelChoice = Recorded | Fixed(channel: Channel)

  function ChannelFor(a: Account, choice: ChannelChoice): Option<Channel>
  {
    match choice
    case Recorded => a.verificationMethod
    case Fixed(c) => Some(c)
  }

  /** The assignments of a successful verification: the flag of `channel`
      only, the verification instant, the single-use fields cleared, and
      `pending` promoted to `active` (any other status kept). */
  function MarkVerified(a: Account, channel: Option<Channel>, now: nat): (r: Account)
    ensures r.verification.email == (a.verification.email || channel == Some(EmailChannel))
    ensures r.verification.phone == (a.verification.phone || channel == Some(PhoneChannel))
    ensures r.verification.identity == a.verification.identity && r.verification.verifyAt == Some(now)
    ensures r.verificationCode.None? && r.verificationExpires.None? && r.verificationMethod.None?
    ensures r.status == (if a.status == Pending then Active else a.status)
    ensures r == a.(verification := r.verification, status := r.status, verificationCode := None,
                    verificationExpires := None, verificationMethod := None)
  {
    var v := a.verification;
    var flags := v.(email := v.email || channel == Some(EmailChannel), phone := v.phone || channel == Some(PhoneChannel));
    a.(verification := flags.(verifyAt := Some(now)),
       status := if a.status == Pending then Active else a.status,
       verificationCode := None, verificationExpires := None, verificationMethod := None)
  }

  /** The verified record as saved, after the pre-save hook. */
  function VerifiedRecord(a: Account, channel: Option<Channel>, now: nat): (r: Account)
    ensures r == MarkVerified(a, channel, now).(trustScore := r.trustScore)
    ensures a.trustScore == TrustScore(a.verification) ==> r.trustScore == TrustScore(r.verification)
  {
    PreSave(a, MarkVerified(a, channel, now))
  }

  /** The lookup of `verifyCode`: the identifier is the email (lower-cased)
      or the phone number, and the stored code is the supplied one and has
      not expired. */
  predicate VerifyCodeFilter(a: Account, identifier: string, code: string, now: nat)
  {
    (a.email == ToLower(identifier) || a.phoneNumber == identifier)
    && SecretLive(a.verificationCode, a.verificationExpires, code, now)
  }

  /** The lookup of `verifyEmail`. */
  predicate VerifyEmailFilter(a: Account, email: string, code: string, now: nat)
  {
    a.email == ToLower(email) && SecretLive(a.verificationCode, a.verificationExpires, code, now)
  }

  /** The lookup `verifyPhone` evidently intends: phone number and stored code. */
  predicate VerifyPhoneFilter(a: Account, phoneNumber: string, code: string, now: nat)
  {
    a.phoneNumber == phoneNumber && SecretLive(a.verificationCode, a.verificationExpires, code, now)
  }

  /** What `verifyPhone` queries as written: it asks for a `verificationToken`,
      a field that no handler writes, so the stored value is always absent. */
  predicate VerifyPhoneFilterAsWritten(a: Account, phoneNumber: string, code: string, now: nat)
  {
    var verificationToken: Option<string> := None;
    a.phoneNumber == phoneNumber && SecretLive(verificationToken, a.verificationExpires, code, now)
  }

  /** The shared part of the three verification handlers: find a document
      through `filter`, mark it verified and save it. */
  method VerifyMatching(store: UserCollection, filter: Account -> bool, choice: ChannelChoice, now: nat)
    returns (r: VerifyOutcome)
    requires store.Valid()
    modifies store
    ensures store.Valid()
    ensures r.InvalidOrExpired? || r.Verified?
    ensures r.InvalidOrExpired? <==> forall id :: id in old(store.users) ==> !filter(old(store.users)[id])
    ensures r.InvalidOrExpired? ==> store.users == old(store.users)
    ensures r.Verified? ==>
              r.id in old(store.users) && filter(old(store.users)[r.id])
              && store.users == old(store.users)[r.id := VerifiedRecord(old(store.users)[r.id],
                                                                          ChannelFor(old(store.users)[r.id], choice), now)]
  {
    var found := store.FindOne(filter);
    if found.None? {
      return InvalidOrExpired;
    }
    var id := found.value;
    var user := store.users[id];
    var channel := ChannelFor(user, choice);
    user := MarkVerified(user, channel, now);
    store.Save(id, user);
    r := Verified(id);
  }

  /** `verifyCode`: the account changes only when its stored code equals the
      supplied one and expires strictly after `now`. The flag set is the one
      of the channel the account recorded. */
  method VerifyCode(store: UserCollection, identifier: string, code: string, now: nat) returns (r: VerifyOutcome)
    requires store.Valid()
    modifies store
    ensures store.Valid()
    ensures identifier == "" || code == "" ==> r == VerifyInputRequired
    ensures identifier != "" && code != "" ==> r.InvalidOrExpired? || r.Verified?
    ensures !r.Verified? ==> store.users == old(store.users)
    ensures r == InvalidOrExpired <==>
              identifier != "" && code != ""
              && forall id :: id in old(store.users) ==> !VerifyCodeFilter(old(store.users)[id], identifier, code, now)
    ensures r.Verified? ==>
              r.id in old(store.users) && VerifyCodeFilter(old(store.users)[r.id], identifier, code, now)
              && store.users == old(store.users)[r.id := VerifiedRecord(old(store.users)[r.id],
                                                                          old(store.users)[r.id].verificationMethod, now)]
  {
    if identifier == "" || code == "" {
      return VerifyInputRequired;
    }
    r := VerifyMatching(store, (a: Account) => VerifyCodeFilter(a, identifier, code, now), Recorded, now);
  }

  /** `verifyEmail`: keyed by email and code; sets the email flag. */
  method VerifyEmail(store: UserCollection, email: string, code: string, now: nat) returns (r: VerifyOutcome)
    requires store.Valid()
    modifies store
    ensures store.Valid()
    ensures email == "" || code == "" ==> r == VerifyInputRequired
    ensures email != "" && code != "" ==> r.InvalidOrExpired? || r.Verified?
    ensures !r.Verified? ==> store.users == old(store.users)
    ensures r == InvalidOrExpired <==>
              email != "" && code != ""
              && forall id :: id in old(store.users) ==> !VerifyEmailFilter(old(store.users)[id], email, code, now)
    ensures r.Verified? ==>
              r.id in old(store.users) && VerifyEmailFilter(old(store.users)[r.id], email, code, now)
              && store.users == old(store.users)[r.id := VerifiedRecord(old(store.users)[r.id], Some(EmailChannel), now)]
  {
    if code == "" || email == "" {
      return VerifyInputRequired;
    }
    r := VerifyMatching(store, (a: Account) => VerifyEmailFilter(a, email, code, now), Fixed(EmailChannel), now);
  }

  /** `verifyPhone` with the lookup on the stored code; sets the phone flag. */
  method VerifyPhone(store: UserCollection, phoneNumber: string, code: string, now: nat) returns (r: VerifyOutcome)
    requires store.Valid()
    modifies store
    ensures store.Valid()
    ensures phoneNumber == "" || code == "" ==> r == VerifyInputRequired
    ensures phoneNumber != "" && code != "" ==> r.InvalidOrExpired? || r.Verified?
    ensures !r.Verified? ==> store.users == old(store.users)
    ensures r == InvalidOrExpired <==>
              phoneNumber != "" && code != ""
              && forall id :: id in old(store.users) ==> !VerifyPhoneFilter(old(store.users)[id], phoneNumber, code, now)
    ensures r.Verified? ==>
              r.id in old(store.users) && VerifyPhoneFilter(old(store.users)[r.id], phoneNumber, code, now)
              && store.users == old(store.users)[r.id := VerifiedRecord(old(store.users)[r.id], Some(PhoneChannel), now)]
  {
    if phoneNumber == "" || code == "" {
      return VerifyInputRequired;
    }
    r := VerifyMatching(store, (a: Account) => VerifyPhoneFilter(a, phoneNumber, code, now), Fixed(PhoneChannel), now);
  }

  /** As written, the `verifyPhone` lookup matches no document, so every
      well-formed request is answered "Invalid or expired verification
      code" even right after a code was issued for that phone number. */
  lemma VerifyPhoneAsWrittenNeverMatches(a: Account, code: string, now: nat)
    requires now < now + VerificationWindowMs
    ensures !VerifyPhoneFilterAsWritten(IssueCode(a, code, now), a.phoneNumber, code, now)
    ensures VerifyPhoneFilter(IssueCode(a, code, now), a.phoneNumber, code, now)
  {
  }

  // ================================================================ issuing codes

  /** A fresh code valid for 30 minutes replaces the outstanding one; the
      channel the account recorded is kept. */
  function IssueCode(a: Account, code: string, now: nat): (r: Account)
    ensures r == a.(verificationCode := Some(code), verificationExpires := Some(now + VerificationWindowMs))
  {
    a.(verificationCode := Some(code), verificationExpires := Some(now + VerificationWindowMs))
  }

  /** An issued code verifies exactly the supplied string that equals it,
      at instants strictly before the 30 minutes are over. */
  lemma IssuedCodeLiveIff(a: Account, code: string, now: nat, supplied: string, t: nat)
    ensures SecretLive(IssueCode(a, code, now).verificationCode, IssueCode(a, code, now).verificationExpires, supplied, t)
            <==> supplied == code && t < now + VerificationWindowMs
  {
  }

  /** Resending replaces the outstanding code: the previous one no longer
      verifies, through any of the lookups, at any instant. */
  lemma ResendInvalidatesPreviousCode(a: Account, previous: string, newCode: string, now: nat, identifier: string, t: nat)
    requires previous != newCode
    ensures !VerifyCodeFilter(IssueCode(a, newCode, now), identifier, previous, t)
    ensures !VerifyEmailFilter(IssueCode(a, newCode, now), identifier, previous, t)
    ensures !VerifyPhoneFilter(IssueCode(a, newCode, now), identifier, previous, t)
  {
  }

  /** Signing up and then verifying with the issued code before it expires
      activates the account and sets the flag of the chosen channel only. */
  lemma SignupThenVerifyActivates(req: SignupRequest, code: string, now: nat, t: nat)
    requires now <= t < now + VerificationWindowMs
    ensures VerifyCodeFilter(NewAccount(req, code, now), req.email, code, t)
    ensures var v := VerifiedRecord(NewAccount(req, code, now), Some(ChosenChannel(req)), t);
            v.status == Active
            && v.verification.email == (ChosenChannel(req) == EmailChannel)
            && v.verification.phone == (ChosenChannel(req) == PhoneChannel)
            && v.trustScore == (if ChosenChannel(req) == EmailChannel then 20 else 30)
            && v.verificationCode.None?
  {
  }

  /** A verification on a document that records no channel (one created by
      the token-per-channel signup, say) sets no flag, yet still promotes a
      pending account to active. */
  lemma VerifyWithoutRecordedChannelSetsNoFlag(a: Account, now: nat)
    requires a.verificationMethod.None? && a.status == Pending
    requires !a.verification.email && !a.verification.phone
    ensures var v := VerifiedRecord(a, a.verificationMethod, now);
            v.status == Active && !v.verification.email && !v.verification.phone
  {
  }

  // ================================================================ resending

  datatype ResendOutcome = ResendInputRequired | UserNotFound | AlreadyVerified | SendFailed | ServerError | CodeSent
  {
    function HttpStatus(): nat
    {
      match this
      case ResendInputRequired => 400
      case UserNotFound => 404
      case AlreadyVerified => 400
      case SendFailed => 500
      case ServerError => 500
      case CodeSent => 200
    }
  }

  /** The lookup `resendVerificationCode` evidently intends: the identifier
      as email (lower-cased) or as phone number. */
  predicate ResendCodeFilter(a: Account, identifier: string)
  {
    a.email == ToLower(identifier) || a.phoneNumber == identifier
  }

  /** The channel a resent code goes through: email when the account
      recorded email or the identifier contains '@', SMS otherwise. */
  function ResendChannel(a: Account, identifier: string): Channel
  {
    if a.verificationMethod == Some(EmailChannel) || '@' in identifier then EmailChannel else PhoneChannel
  }

  /** `resendVerificationCode` as written: its lookup reads a variable
      `email` that is not defined, so every request with an identifier ends
      in the 500 "Server error" branch before the collection is touched. */
  function ResendCodeAsWritten(identifier: string): (r: ResendOutcome)
    ensures identifier == "" <==> r == ResendInputRequired
    ensures identifier != "" ==> r.HttpStatus() == 500
  {
    if identifier == "" then ResendInputRequired else ServerError
  }

  /** An account with an unverified channel and a working mail channel gets
      its code as intended, yet the handler as written answers 500. */
  lemma ResendCodeAsWrittenNeverSends(a: Account, identifier: string)
    requires identifier != "" && ResendCodeFilter(a, identifier)
    requires !(a.verification.email && a.verification.phone)
    ensures ResendCodeAsWritten(identifier) == ServerError
  {
  }

  /** `resendVerificationCode` with the lookup on the supplied identifier.
      A fully verified account is refused and left untouched; otherwise a
      fresh code replaces the old one, and a failed dispatch is reported
      (the new code is already stored by then). */
  method ResendVerificationCode(store: UserCollection, identifier: string, code: string, now: nat,
                                delivered: Channel -> bool) returns (r: ResendOutcome, who: Option<UserId>)
    requires store.Valid()
    modifies store
    ensures store.Valid()
    ensures identifier == "" <==> r == ResendInputRequired
    ensures r != ServerError
    ensures who.Some? <==> r in {AlreadyVerified, SendFailed, CodeSent}
    ensures who.Some? ==>
              who.value in old(store.users) && (r == AlreadyVerified <==> old(store.users)[who.value].verification.email && old(store.users)[who.value].verification.phone)
    ensures r == UserNotFound <==>
              identifier != "" && forall id :: id in old(store.users) ==> !ResendCodeFilter(old(store.users)[id], identifier)
    ensures r in {ResendInputRequired, UserNotFound, AlreadyVerified} ==> store.users == old(store.users)
    ensures who.Some? ==> who.value in old(store.users) && ResendCodeFilter(old(store.users)[who.value], identifier)
    ensures r == AlreadyVerified ==>
              who.Some? && old(store.users)[who.value].verification.email && old(store.users)[who.value].verification.phone
    ensures r == SendFailed || r == CodeSent ==>
              who.Some? && !(old(store.users)[who.value].verification.email && old(store.users)[who.value].verification.phone)
              && store.users == old(store.users)[who.value := IssueCode(old(store.users)[who.value], code, now)]
              && (r == SendFailed <==> !delivered(ResendChannel(old(store.users)[who.value], identifier)))
  {
    who := None;
    if identifier == "" {
      return ResendInputRequired, who;
    }
    var found := store.FindOne((a: Account) => ResendCodeFilter(a, identifier));
    if found.None? {
      return UserNotFound, who;
    }
    var id := found.value;
    who := found;
    var user := store.users[id];
    if user.verification.email && user.verification.phone {
      return AlreadyVerified, who;
    }
    user := user.(verificationCode := Some(code));
    user := user.(verificationExpires := Some(now + VerificationWindowMs));
    store.Save(id, user);
    if !delivered(ResendChannel(user, identifier)) {
      return SendFailed, who;
    }
    r := CodeSent;
  }

  /** `resendVerificationEmail`: refused when the email is already verified;
      otherwise a fresh code replaces the old one; a failed email surfaces
      as the generic 500. */
  method ResendVerificationEmail(store: UserCollection, email: string, code: string, now: nat,
                                 delivered: Channel -> bool) returns (r: ResendOutcome, who: Option<UserId>)
    requires store.Valid()
    modifies store
    ensures store.Valid()
    ensures email == "" <==> r == ResendInputRequired
    ensures r != SendFailed
    ensures who.Some? <==> r in {AlreadyVerified, ServerError, CodeSent}
    ensures who.Some? ==> who.value in old(store.users) && (r == AlreadyVerified <==> old(store.users)[who.value].verification.email)
    ensures r == UserNotFound <==>
              email != "" && forall id :: id in old(store.users) ==> old(store.users)[id].email != ToLower(email)
    ensures r in {ResendInputRequired, UserNotFound, AlreadyVerified} ==> store.users == old(store.users)
    ensures who.Some? ==> who.value in old(store.users) && old(store.users)[who.value].email == ToLower(email)
    ensures r == AlreadyVerified ==> who.Some? && old(store.users)[who.value].verification.email
    ensures r == ServerError || r == CodeSent ==>
              who.Some? && !old(store.users)[who.value].verification.email
              && store.users == old(store.users)[who.value := IssueCode(old(store.users)[who.value], code, now)]
              && (r == ServerError <==> !delivered(EmailChannel))
  {
    who := None;
    if email == "" {
      return ResendInputRequired, who;
    }
    var found := store.FindOne((a: Account) => a.email == ToLower(email));
    if found.None? {
      return UserNotFound, who;
    }
    var id := found.value;
    who := found;
    var user := store.users[id];
    if user.verification.email {
      return AlreadyVerified, who;
    }
    user := user.(verificationCode := Some(code));
    user := user.(verificationExpires := Some(now + VerificationWindowMs));
    store.Save(id, user);
    if !delivered(EmailChannel) {
      return ServerError, who;
    }
    r := CodeSent;
  }

  /** `resendVerificationPhone`: refused when the phone is already verified;
      otherwise a fresh code replaces the old one; a failed SMS surfaces as
      the generic 500. */
  method ResendVerificationPhone(store: UserCollection, phoneNumber: string, code: string, now: nat,
                                 delivered: Channel -> bool) returns (r: ResendOutcome, who: Option<UserId>)
    requires store.Valid()
    modifies store
    ensures store.Valid()
    ensures phoneNumber == "" <==> r == ResendInputRequired
    ensures r != SendFailed
    ensures who.Some? <==> r in {AlreadyVerified, ServerError, CodeSent}
    ensures who.Some? ==> who.value in old(store.users) && (r == AlreadyVerified <==> old(store.users)[who.value].verification.phone)
    ensures r == UserNotFound <==>
              phoneNumber != "" && forall id :: id in old(store.users) ==> old(store.users)[id].phoneNumber != phoneNumber
    ensures r in {ResendInputRequired, UserNotFound, AlreadyVerified} ==> store.users == old(store.users)
    ensures who.Some? ==> who.value in old(store.users) && old(store.users)[who.value].phoneNumber == phoneNumber
    ensures r == AlreadyVerified ==> who.Some? && old(store.users)[who.value].verification.phone
    ensures r == ServerError || r == CodeSent ==>
              who.Some? && !old(store.users)[who.value].verification.phone
              && store.users == old(store.users)[who.value := IssueCode(old(store.users)[who.value], code, now)]
              && (r == ServerError <==> !delivered(PhoneChannel))
  {
    who := None;
    if phoneNumber == "" {
      return ResendInputRequired, who;
    }
    var found := store.FindOne((a: Account) => a.phoneNumber == phoneNumber);
    if found.None? {
      return UserNotFound, who;
    }
    var id := found.value;
    who := found;
    var user := store.users[id];
    if user.verification.phone {
      return AlreadyVerified, who;
    }
    user := user.(verificationCode := Some(code));
    user := user.(verificationExpires := Some(now + VerificationWindowMs));
    store.Save(id, user);
    if !delivered(PhoneChannel) {
      return ServerError, who;
    }
    r := CodeSent;
  }

  // ================================================================ sign-in

  /** The response of `signin`. An unknown identifier and a wrong password
      both give `InvalidCredentials`. */
  datatype SigninOutcome =
    | CredentialsRequired
    | InvalidCredentials
    | Locked(lockUntil: nat)
    | Refused(status: Status)
    | PendingVerification(channel: Option<Channel>)
    | SignedIn(id: UserId)
    | SigninServerError
  {
    function HttpStatus(): nat
    {
      match this
      case CredentialsRequired => 400
      case InvalidCredentials => 401
      case Locked(_) => 423
      case Refused(_) => 403
      case PendingVerification(_) => 403
      case SignedIn(_) => 200
      case SigninServerError => 500
    }

    function Message(): string
    {
      match this
      case CredentialsRequired => "Please provide identifier (email/nickname/phone) and password"
      case InvalidCredentials => "Invalid credentials"
      case Locked(_) => "Account is temporarily locked due to multiple failed login attempts"
      case Refused(Banned) => "Your account has been banned. Please contact support."
      case Refused(Deactivated) => "Your account has been deactivate. Please contact support to reactivate"
      case Refused(_) => "Your account has been suspended. Please contact support"
      case PendingVerification(_) => "Please verify your email or phone number before signing in"
      case SignedIn(_) => "Sign in successful"
      case SigninServerError => "Server error during signing in"
    }
  }

  /** The statuses `signin` refuses with 403 before looking at the password. */
  predicate IsRefusedStatus(s: Status)
  {
    s == Suspend || s == Banned || s == Deactivated
  }

  /** The test as written compares against the name "suspended", which is
      not a value of the `accountStatus` enum. */
  predicate IsRefusedStatusAsWritten(s: Status)
  {
    StatusName(s) == "suspended" || StatusName(s) == "banned" || StatusName(s) == "deactivated"
  }

  /** As written, a suspended account is not refused: it goes on to the
      password check and can sign in. */
  lemma SuspendedPassesAsWritten()
    ensures !IsRefusedStatusAsWritten(Suspend) && IsRefusedStatus(Suspend)
    ensures forall s :: s != Suspend ==> (IsRefusedStatusAsWritten(s) <==> IsRefusedStatus(s))
  {
  }

  /** The outcome of one sign-in attempt on a found document. */
  datatype AttemptOutcome = LockedOut(until: nat) | RefusedStatus(status: Status) | WrongPassword
                          | NotVerified(channel: Option<Channel>) | Success

  datatype SigninStep = SigninStep(outcome: AttemptOutcome, after: Account)

  /** The ordered checks of `signin` on a found document: lock, status,
      password, pending. Only a wrong password touches the counter, and only
      a full success clears it. */
  function SigninAttempt(a: Account, passwordOk: bool, now: nat): (step: SigninStep)
    ensures step.outcome.LockedOut? <==> IsLocked(a, now)
    ensures IsLocked(a, now) ==> step == SigninStep(LockedOut(a.lockUntil.value), a)
    ensures step.outcome.RefusedStatus? <==> !IsLocked(a, now) && IsRefusedStatus(a.status)
    ensures step.outcome.RefusedStatus? ==> step.outcome.status == a.status
    ensures step.outcome.WrongPassword? <==> !IsLocked(a, now) && !IsRefusedStatus(a.status) && !passwordOk
    ensures step.outcome.WrongPassword? ==> step.after == IncLoginAttempts(a, now)
    ensures step.outcome.NotVerified? <==> !IsLocked(a, now) && passwordOk && a.status == Pending
    ensures step.outcome.NotVerified? ==> step.outcome.channel == a.verificationMethod
    ensures step.outcome.Success? <==> !IsLocked(a, now) && passwordOk && a.status == Active
    ensures step.outcome.Success? ==>
              step.after.loginAttempts == 0 && !IsLocked(step.after, now)
              && step.after.lastLogin == Some(now) && step.after.lastActive == now
              && step.after == a.(loginAttempts := 0, lockUntil := step.after.lockUntil,
                                  lastLogin := Some(now), lastActive := now)
    ensures !step.outcome.WrongPassword? && !step.outcome.Success? ==> step.after == a
  {
    if IsLocked(a, now) then SigninStep(LockedOut(a.lockUntil.value), a)
    else if IsRefusedStatus(a.status) then SigninStep(RefusedStatus(a.status), a)
    else if !passwordOk then SigninStep(WrongPassword, IncLoginAttempts(a, now))
    else if a.status == Pending then SigninStep(NotVerified(a.verificationMethod), a)
    else
      var cleared := if a.loginAttempts > 0 then a.(loginAttempts := 0, lockUntil := None) else a;
      SigninStep(Success, cleared.(lastLogin := Some(now), lastActive := now))
  }

  /** The response for a sign-in attempt on document `id`. */
  function SigninResponse(o: AttemptOutcome, id: UserId): SigninOutcome
  {
    match o
    case LockedOut(until) => Locked(until)
    case RefusedStatus(s) => Refused(s)
    case WrongPassword => InvalidCredentials
    case NotVerified(m) => PendingVerification(m)
    case Success => SignedIn(id)
  }

  /** The lookup of `signin`: email or nickname lower-cased, or the phone
      number exactly, among documents not soft-deleted. */
  predicate SigninFilter(a: Account, identifier: string)
  {
    (a.email == ToLower(identifier) || a.nickname == ToLower(identifier) || a.phoneNumber == identifier)
    && a.deletedAt.None?
  }

  /** `signin` with the document awaited, `isLocked` and `incLoginAttempts`
      called by their names, and the schema's `suspend`. `passwordMatches`
      stands for `matchPassword`: stored password, then candidate. */
  method Signin(store: UserCollection, identifier: string, password: string, now: nat,
                passwordMatches: (string, string) -> bool) returns (r: SigninOutcome, who: Option<UserId>)
    requires store.Valid()
    modifies store
    ensures store.Valid()
    ensures identifier == "" || password == "" ==> r == CredentialsRequired && who.None?
    ensures who.None? ==> store.users == old(store.users)
    ensures identifier != "" && password != "" && who.None? <==>
              identifier != "" && password != ""
              && forall id :: id in old(store.users) ==> !SigninFilter(old(store.users)[id], identifier)
    ensures identifier != "" && password != "" && who.None? ==> r == InvalidCredentials
    ensures who.Some? ==>
              who.value in old(store.users) &&
              var a := old(store.users)[who.value];
              var step := SigninAttempt(a, passwordMatches(a.password, password), now);
              SigninFilter(a, identifier)
              && r == SigninResponse(step.outcome, who.value)
              && store.users == old(store.users)[who.value := step.after]
  {
    who := None;
    if identifier == "" || password == "" {
      return CredentialsRequired, who;
    }
    var found := store.FindOne((a: Account) => SigninFilter(a, identifier));
    if found.None? {
      return InvalidCredentials, who;
    }
    var id := found.value;
    who := found;
    var user := store.users[id];
    if IsLocked(user, now) {
      return Locked(user.lockUntil.value), who;
    }
    if user.status == Suspend {
      return Refused(Suspend), who;
    }
    if user.status == Banned {
      return Refused(Banned), who;
    }
    if user.status == Deactivated {
      return Refused(Deactivated), who;
    }
    var passwordOk := passwordMatches(user.password, password);
    if !passwordOk {
      store.IncLoginAttempts(id, now);
      return InvalidCredentials, who;
    }
    if user.status == Pending {
      return PendingVerification(user.verificationMethod), who;
    }
    if user.loginAttempts > 0 {
      user := user.(loginAttempts := 0);
      user := user.(lockUntil := None);
    }
    user := user.(lastLogin := Some(now));
    user := user.(lastActive := now);
    store.Save(id, user);
    r := SignedIn(id);
  }

  /** `signin` as written: the lookup is not awaited, so `user` is a query
      object, always present, on which `isLock` is not a function; every
      request with both fields ends in the 500 branch. */
  function SigninAsWritten(identifier: string, password: string): (r: SigninOutcome)
    ensures identifier == "" || password == "" <==> r == CredentialsRequired
    ensures identifier != "" && password != "" ==> r.HttpStatus() == 500
  {
    if identifier == "" || password == "" then CredentialsRequired else SigninServerError
  }

  /** An active, unlocked account with the right password signs in under
      the intended checks, but gets the 500 as written. */
  lemma SigninAsWrittenNeverSignsIn(a: Account, identifier: string, password: string, now: nat)
    requires identifier != "" && password != ""
    requires a.status == Active && !IsLocked(a, now)
    ensures SigninAttempt(a, true, now).outcome == Success
    ensures SigninAsWritten(identifier, password) == SigninServerError
  {
  }

  /** Repeated sign-ins with a wrong password, one per instant of `times`. */
  function WrongPasswordSignins(a: Account, times: seq<nat>): Account
    decreases |times|
  {
    if times == [] then a else WrongPasswordSignins(SigninAttempt(a, false, times[0]).after, times[1..])
  }

  /** Up to five wrong passwords on an unlocked account that is not refused
      are exactly that many calls of `incLoginAttempts`. */
  lemma {:induction false} WrongSigninsCountFailures(a: Account, times: seq<nat>)
    requires a.lockUntil.None? && a.loginAttempts + |times| <= MaxLoginAttempts && !IsRefusedStatus(a.status)
    ensures WrongPasswordSignins(a, times) == FailedAttempts(a, times)
    decreases |times|
  {
    if times != [] {
      var b := IncLoginAttempts(a, times[0]);
      assert SigninAttempt(a, false, times[0]).after == b;
      if |times| > 1 {
        assert b.lockUntil.None?;
        WrongSigninsCountFailures(b, times[1..]);
      } else {
        assert times[1..] == [];
      }
    }
  }

  /** Five consecutive wrong passwords lock a clean account, and within the
      next two hours even the right password is answered 423. */
  lemma FiveWrongPasswordsLockOut(a: Account, times: seq<nat>, t: nat)
    requires a.lockUntil.None? && a.loginAttempts == 0 && !IsRefusedStatus(a.status)
    requires |times| == MaxLoginAttempts && times[4] <= t < times[4] + LockTimeMs
    ensures SigninAttempt(WrongPasswordSignins(a, times), true, t).outcome == LockedOut(times[4] + LockTimeMs)
  {
    WrongSigninsCountFailures(a, times);
    FifthFailureLocks(a, times);
  }

  // ================================================================ password reset

  datatype ForgotOutcome = EmailRequired | ResetNotice | ResetSendFailed
  {
    function HttpStatus(): nat
    {
      match this
      case EmailRequired => 400
      case ResetNotice => 200
      case ResetSendFailed => 500
    }

    function Message(): string
    {
      match this
      case EmailRequired => "Email is required"
      case ResetNotice => "If an account exists with this email, a password reset code will be sent"
      case ResetSendFailed => "Failed to send password reset email"
    }
  }

  /** The lookup of `forgotPassword`. */
  predicate ForgotFilter(a: Account, email: string)
  {
    a.email == ToLower(email) && a.deletedAt.None?
  }

  /** A reset code valid for 30 minutes. */
  function IssueResetCode(a: Account, code: string, now: nat): (r: Account)
    ensures r == a.(passwordResetToken := Some(code), passwordResetExpires := Some(now + VerificationWindowMs))
  {
    a.(passwordResetToken := Some(code), passwordResetExpires := Some(now + VerificationWindowMs))
  }

  /** `forgotPassword`: the same 200 notice whether or not the email
      belongs to an account; only a failed dispatch for an existing account
      answers differently. */
  method ForgotPassword(store: UserCollection, email: string, code: string, now: nat, delivered: bool)
    returns (r: ForgotOutcome, who: Option<UserId>)
    requires store.Valid()
    modifies store
    ensures store.Valid()
    ensures email == "" <==> r == EmailRequired
    ensures who.None? ==> store.users == old(store.users)
    ensures email != "" && (forall id :: id in old(store.users) ==> !ForgotFilter(old(store.users)[id], email)) ==>
              r == ResetNotice && who.None?
    ensures email != "" && who.None? ==>
              forall id :: id in old(store.users) ==> !ForgotFilter(old(store.users)[id], email)
    ensures r == ResetSendFailed ==> who.Some? && !delivered
    ensures who.Some? ==>
              who.value in old(store.users) && ForgotFilter(old(store.users)[who.value], email)
              && store.users == old(store.users)[who.value := IssueResetCode(old(store.users)[who.value], code, now)]
              && (r == ResetNotice <==> delivered)
  {
    who := None;
    if email == "" {
      return EmailRequired, who;
    }
    var found := store.FindOne((a: Account) => ForgotFilter(a, email));
    if found.None? {
      return ResetNotice, who;
    }
    var id := found.value;
    who := found;
    var user := store.users[id];
    user := user.(passwordResetToken := Some(code));
    user := user.(passwordResetExpires := Some(now + VerificationWindowMs));
    store.Save(id, user);
    if !delivered {
      return ResetSendFailed, who;
    }
    r := ResetNotice;
  }

  datatype ResetOutcome = ResetInputRequired | PasswordTooShort | InvalidResetCode | ResetCodeValid | PasswordReset
  {
    function HttpStatus(): nat
    {
      if this == ResetCodeValid || this == PasswordReset then 200 else 400
    }
  }

  /** The lookup of `verifyResetCode` and `resetPassword`. */
  predicate ResetFilter(a: Account, email: string, code: string, now: nat)
  {
    a.email == ToLower(email) && SecretLive(a.passwordResetToken, a.passwordResetExpires, code, now)
    && a.deletedAt.None?
  }

  /** A reset code just issued matches the reset lookup for the account's
      own email, with exactly that code, strictly before 30 minutes are
      over, and only while the account is not deleted. */
  lemma IssuedResetCodeLiveIff(a: Account, code: string, now: nat, email: string, supplied: string, t: nat)
    ensures ResetFilter(IssueResetCode(a, code, now), email, supplied, t) <==>
              a.email == ToLower(email) && a.deletedAt.None? && supplied == code && t < now + VerificationWindowMs
  {
  }

  /** `verifyResetCode`: validates without writing anything. */
  method VerifyResetCode(store: UserCollection, email: string, code: string, now: nat) returns (r: ResetOutcome)
    ensures email == "" || code == "" ==> r == ResetInputRequired
    ensures email != "" && code != "" ==>
              r in {InvalidResetCode, ResetCodeValid}
              && (r == ResetCodeValid <==> exists id :: id in store.users && ResetFilter(store.users[id], email, code, now))
  {
    if email == "" || code == "" {
      return ResetInputRequired;
    }
    var found := store.FindOne((a: Account) => ResetFilter(a, email, code, now));
    if found.None? {
      return InvalidResetCode;
    }
    r := ResetCodeValid;
  }

  /** The record after a successful reset: new password, reset code spent,
      failed-attempt counter and lock cleared. */
  function ApplyReset(a: Account, newPassword: string): (r: Account)
    ensures r.password == newPassword && r.passwordResetToken.None? && r.passwordResetExpires.None?
    ensures r.loginAttempts == 0 && r.lockUntil.None?
    ensures r == a.(password := newPassword, passwordResetToken := None, passwordResetExpires := None,
                    loginAttempts := 0, lockUntil := None)
  {
    a.(password := newPassword, passwordResetToken := None, passwordResetExpires := None,
       loginAttempts := 0, lockUntil := None)
  }

  /** A reset code works once, and a reset lifts any lock at once. */
  lemma ResetCodeIsSingleUse(a: Account, email: string, code: string, newPassword: string, t: nat)
    ensures !ResetFilter(ApplyReset(a, newPassword), email, code, t)
    ensures !IsLocked(ApplyReset(a, newPassword), t)
  {
  }

  /** `resetPassword`: requires all three inputs, a new password of at least
      six characters and a matching, unexpired reset code; replaces the
      password and clears reset and lock state in one save. */
  method ResetPassword(store: UserCollection, email: string, code: string, newPassword: string, now: nat)
    returns (r: ResetOutcome, who: Option<UserId>)
    requires store.Valid()
    modifies store
    ensures store.Valid()
    ensures email == "" || code == "" || newPassword == "" ==> r == ResetInputRequired
    ensures email != "" && code != "" && newPassword != "" ==> r in {PasswordTooShort, InvalidResetCode, PasswordReset}
    ensures email != "" && code != "" && newPassword != "" ==>
              (r == PasswordTooShort <==> Utf16Length(newPassword) < MinimumPasswordLength)
    ensures r != PasswordReset ==> store.users == old(store.users) && who.None?
    ensures r == InvalidResetCode <==>
              email != "" && code != "" && Utf16Length(newPassword) >= MinimumPasswordLength
              && forall id :: id in old(store.users) ==> !ResetFilter(old(store.users)[id], email, code, now)
    ensures r == PasswordReset ==>
              who.Some? && who.value in old(store.users) && ResetFilter(old(store.users)[who.value], email, code, now)
              && Utf16Length(newPassword) >= MinimumPasswordLength
              && store.users == old(store.users)[who.value := ApplyReset(old(store.users)[who.value], newPassword)]
  {
    who := None;
    if email == "" || code == "" || newPassword == "" {
      return ResetInputRequired, who;
    }
    if Utf16Length(newPassword) < MinimumPasswordLength {
      return PasswordTooShort, who;
    }
    var found := store.FindOne((a: Account) => ResetFilter(a, email, code, now));
    if found.None? {
      return InvalidResetCode, who;
    }
    var id := found.value;
    var user := store.users[id];
    user := user.(password := newPassword);
    user := user.(passwordResetToken := None);
    user := user.(passwordResetExpires := None);
    user := user.(loginAttempts := 0);
    user := user.(lockUntil := None);
    store.Save(id, user);
    who := found;
    r := PasswordReset;
  }
}
