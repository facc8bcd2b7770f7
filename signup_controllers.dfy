/** The handlers of web/backend/src/controllers/signupControllers.js: the
    variant of signup that stores one secret per channel (an email token or
    an SMS code, each with its own expiry) instead of one shared code, and
    the verification and resend handlers that go with it. The request
    checks, the conflict report and the availability lookup are the same
    as in the other controller. */
module SignupControllers {
  import opened Common
  import opened UserModel
  import opened Store
  import opened SignupRules
  import Auth = AuthControllers

  /** The document this `signup` creates: no gender and no recorded channel
      are stored; the secret goes into the chosen channel's own field, with
      a 30-minute expiry, and the other channel's field stays empty. */
  function NewTokenAccount(req: SignupRequest, secret: string, now: nat): (a: Account)
    ensures a.nickname == ToLower(req.nickname) && a.email == ToLower(req.email)
    ensures a.phoneNumber == req.phoneNumber && a.password == req.password
    ensures a.status == Pending && a.onboardingStep == 0 && !a.isOnboarded
    ensures a.gender.None? && a.verificationMethod.None? && a.verificationCode.None?
    ensures ChosenChannel(req) == EmailChannel ==>
              a.emailVerificationToken == Some(secret) && a.emailVerificationExpires == Some(now + VerificationWindowMs)
              && a.phoneVerificationToken.None?
    ensures ChosenChannel(req) == PhoneChannel ==>
              a.phoneVerificationToken == Some(secret) && a.phoneVerificationExpires == Some(now + VerificationWindowMs)
              && a.emailVerificationToken.None?
    ensures !a.verification.email && !a.verification.phone
    ensures WellFormed(a)
  {
    var base := Auth.NewAccount(req, secret, now).(gender := None, verificationCode := None,
                                                    verificationExpires := None, verificationMethod := None);
    if ChosenChannel(req) == EmailChannel then
      base.(emailVerificationToken := Some(secret), emailVerificationExpires := Some(now + VerificationWindowMs))
    else
      base.(phoneVerificationToken := Some(secret), phoneVerificationExpires := Some(now + VerificationWindowMs))
  }

  /** `signup`: the same checks and conflict report as the shared-code
      variant. The created document carries no gender, so `create` has
      nothing to reject. */
  method Signup(store: UserCollection, req: SignupRequest, today: Date, now: nat, secret: string,
                delivered: Channel -> bool) returns (r: Auth.SignupOutcome)
    requires store.Valid()
    modifies store
    ensures store.Valid()
    ensures r.Invalid? <==> ValidateSignup(req, today).Some?
    ensures ValidateSignup(req, today).Some? ==> r == Auth.Invalid(ValidateSignup(req, today).value)
    ensures !r.RegistrationError?
    ensures !r.Created? ==> store.users == old(store.users)
    ensures r.Conflict? ==>
              ValidateSignup(req, today).None? &&
              exists id :: id in old(store.users) && ReportedConflict(old(store.users)[id], req) == Some(r.field)
    ensures r.Created? <==>
              ValidateSignup(req, today).None? && forall id :: id in old(store.users) ==> !Collides(old(store.users)[id], req)
    ensures r.Created? ==>
              r.id !in old(store.users) && r.channel == ChosenChannel(req)
              && store.users == old(store.users)[r.id := NewTokenAccount(req, secret, now)]
  {
    var failed := ValidateSignup(req, today);
    if failed.Some? {
      return Auth.Invalid(failed.value);
    }
    var existing := store.FindOne((a: Account) => Collides(a, req));
    if existing.Some? {
      var field := ReportedConflict(store.users[existing.value], req);
      return Auth.Conflict(field.value);
    }
    var doc := NewTokenAccount(req, secret, now);
    var id := store.Create(doc);
    // A failed dispatch is logged and the account is kept.
    var sent := delivered(ChosenChannel(req));
    r := Auth.Created(id, ChosenChannel(req));
  }

  // ---------------------------------------------------------------- verification

  /** `verifyEmail` on success: the email flag and the verification instant
      are set, the email token is spent, a pending account becomes active;
      the phone token is left as it was. */
  function MarkEmailTokenVerified(a: Account, now: nat): (r: Account)
    ensures r.verification == a.verification.(email := true, verifyAt := Some(now))
    ensures r.emailVerificationToken.None? && r.emailVerificationExpires.None?
    ensures r.status == (if a.status == Pending then Active else a.status)
    ensures r == a.(verification := r.verification, status := r.status,
                    emailVerificationToken := None, emailVerificationExpires := None)
  {
    a.(verification := a.verification.(email := true, verifyAt := Some(now)),
       emailVerificationToken := None, emailVerificationExpires := None,
       status := if a.status == Pending then Active else a.status)
  }

  /** `verifyPhone` on success: the phone counterpart of `MarkEmailTokenVerified`. */
  function MarkPhoneTokenVerified(a: Account, now: nat): (r: Account)
    ensures r.verification == a.verification.(phone := true, verifyAt := Some(now))
    ensures r.phoneVerificationToken.None? && r.phoneVerificationExpires.None?
    ensures r.status == (if a.status == Pending then Active else a.status)
    ensures r == a.(verification := r.verification, status := r.status,
                    phoneVerificationToken := None, phoneVerificationExpires := None)
  {
    a.(verification := a.verification.(phone := true, verifyAt := Some(now)),
       phoneVerificationToken := None, phoneVerificationExpires := None,
       status := if a.status == Pending then Active else a.status)
  }

  /** The lookup of `verifyEmail`: the token alone, unexpired. */
  predicate EmailTokenFilter(a: Account, token: string, now: nat)
  {
    SecretLive(a.emailVerificationToken, a.emailVerificationExpires, token, now)
  }

  /** The lookup of `verifyPhone`: phone number and SMS code, unexpired. */
  predicate PhoneTokenFilter(a: Account, phoneNumber: string, code: string, now: nat)
  {
    a.phoneNumber == phoneNumber && SecretLive(a.phoneVerificationToken, a.phoneVerificationExpires, code, now)
  }

  /** `verifyEmail`. */
  method VerifyEmail(store: UserCollection, token: string, now: nat) returns (r: Auth.VerifyOutcome)
    requires store.Valid()
    modifies store
    ensures store.Valid()
    ensures token == "" ==> r == Auth.VerifyInputRequired
    ensures token != "" ==> r.InvalidOrExpired? || r.Verified?
    ensures !r.Verified? ==> store.users == old(store.users)
    ensures r == Auth.InvalidOrExpired <==>
              token != "" && forall id :: id in old(store.users) ==> !EmailTokenFilter(old(store.users)[id], token, now)
    ensures r.Verified? ==>
              r.id in old(store.users) && EmailTokenFilter(old(store.users)[r.id], token, now)
              && store.users == old(store.users)[r.id := PreSave(old(store.users)[r.id],
                                                                   MarkEmailTokenVerified(old(store.users)[r.id], now))]
  {
    if token == "" {
      return Auth.VerifyInputRequired;
    }
    var found := store.FindOne((a: Account) => EmailTokenFilter(a, token, now));
    if found.None? {
      return Auth.InvalidOrExpired;
    }
    var id := found.value;
    var user := MarkEmailTokenVerified(store.users[id], now);
    store.Save(id, user);
    r := Auth.Verified(id);
  }

  /** `verifyPhone`. */
  method VerifyPhone(store: UserCollection, phoneNumber: string, code: string, now: nat) returns (r: Auth.VerifyOutcome)
    requires store.Valid()
    modifies store
    ensures store.Valid()
    ensures phoneNumber == "" || code == "" ==> r == Auth.VerifyInputRequired
    ensures phoneNumber != "" && code != "" ==> r.InvalidOrExpired? || r.Verified?
    ensures !r.Verified? ==> store.users == old(store.users)
    ensures r == Auth.InvalidOrExpired <==>
              phoneNumber != "" && code != ""
              && forall id :: id in old(store.users) ==> !PhoneTokenFilter(old(store.users)[id], phoneNumber, code, now)
    ensures r.Verified? ==>
              r.id in old(store.users) && PhoneTokenFilter(old(store.users)[r.id], phoneNumber, code, now)
              && store.users == old(store.users)[r.id := PreSave(old(store.users)[r.id],
                                                                   MarkPhoneTokenVerified(old(store.users)[r.id], now))]
  {
    if phoneNumber == "" || code == "" {
      return Auth.VerifyInputRequired;
    }
    var found := store.FindOne((a: Account) => PhoneTokenFilter(a, phoneNumber, code, now));
    if found.None? {
      return Auth.InvalidOrExpired;
    }
    var id := found.value;
    var user := MarkPhoneTokenVerified(store.users[id], now);
    store.Save(id, user);
    r := Auth.Verified(id);
  }

  /** The two channels are verified independently: verifying one leaves the
      other's secret usable, and verifying both (at the same instant) gives
      the same saved record in either order, with both flags set and the
      trust score of both. */
  lemma TokenVerificationsCommute(a: Account, now: nat)
    requires a.trustScore == TrustScore(a.verification)
    ensures var e := PreSave(a, MarkEmailTokenVerified(a, now));
            e.phoneVerificationToken == a.phoneVerificationToken && e.phoneVerificationExpires == a.phoneVerificationExpires
    ensures var p := PreSave(a, MarkPhoneTokenVerified(a, now));
            p.emailVerificationToken == a.emailVerificationToken && p.emailVerificationExpires == a.emailVerificationExpires
    ensures var e := PreSave(a, MarkEmailTokenVerified(a, now));
            var p := PreSave(a, MarkPhoneTokenVerified(a, now));
            var ep := PreSave(e, MarkPhoneTokenVerified(e, now));
            var pe := PreSave(p, MarkEmailTokenVerified(p, now));
            ep == pe && ep.verification.email && ep.verification.phone
            && ep.trustScore == TrustScore(ep.verification) && ep.trustScore >= 50
  {
  }

  /** Signing up by email and following the emailed token within 30
      minutes activates the account with the email flag only. */
  lemma SignupThenFollowTokenActivates(req: SignupRequest, secret: string, now: nat, t: nat)
    requires ChosenChannel(req) == EmailChannel && now <= t < now + VerificationWindowMs
    ensures EmailTokenFilter(NewTokenAccount(req, secret, now), secret, t)
    ensures var v := PreSave(NewTokenAccount(req, secret, now), MarkEmailTokenVerified(NewTokenAccount(req, secret, now), t));
            v.status == Active && v.verification.email && !v.verification.phone && v.trustScore == 20
  {
  }

  /** A document created here holds no shared code, so the shared-code
      `verifyCode` handler can never verify it. */
  lemma TokenAccountNotVerifiableByCode(req: SignupRequest, secret: string, now: nat,
                                        identifier: string, code: string, t: nat)
    ensures !Auth.VerifyCodeFilter(NewTokenAccount(req, secret, now), identifier, code, t)
  {
  }

  // ---------------------------------------------------------------- resending

  /** A fresh email token valid for 30 minutes replaces the old one. */
  function IssueEmailToken(a: Account, token: string, now: nat): (r: Account)
    ensures r == a.(emailVerificationToken := Some(token), emailVerificationExpires := Some(now + VerificationWindowMs))
  {
    a.(emailVerificationToken := Some(token), emailVerificationExpires := Some(now + VerificationWindowMs))
  }

  /** A fresh SMS code valid for 30 minutes replaces the old one. */
  function IssuePhoneToken(a: Account, code: string, now: nat): (r: Account)
    ensures r == a.(phoneVerificationToken := Some(code), phoneVerificationExpires := Some(now + VerificationWindowMs))
  {
    a.(phoneVerificationToken := Some(code), phoneVerificationExpires := Some(now + VerificationWindowMs))
  }

  /** After a resend only the new secret verifies its channel, and the other
      channel's secret is untouched. */
  lemma ResendReplacesOnlyItsChannel(a: Account, previous: string, newSecret: string, now: nat, phoneNumber: string, t: nat)
    requires previous != newSecret
    ensures !EmailTokenFilter(IssueEmailToken(a, newSecret, now), previous, t)
    ensures PhoneTokenFilter(IssueEmailToken(a, newSecret, now), phoneNumber, previous, t)
            <==> PhoneTokenFilter(a, phoneNumber, previous, t)
    ensures !PhoneTokenFilter(IssuePhoneToken(a, newSecret, now), phoneNumber, previous, t)
    ensures EmailTokenFilter(IssuePhoneToken(a, newSecret, now), previous, t) <==> EmailTokenFilter(a, previous, t)
  {
  }

  /** `resendVerificationEmail`. */
  method ResendVerificationEmail(store: UserCollection, email: string, token: string, now: nat,
                                 delivered: Channel -> bool) returns (r: Auth.ResendOutcome, who: Option<UserId>)
    requires store.Valid()
    modifies store
    ensures store.Valid()
    ensures email == "" <==> r == Auth.ResendInputRequired
    ensures r != Auth.SendFailed
    ensures who.Some? <==> r in {Auth.AlreadyVerified, Auth.ServerError, Auth.CodeSent}
    ensures who.Some? ==> who.value in old(store.users) && (r == Auth.AlreadyVerified <==> old(store.users)[who.value].verification.email)
    ensures r == Auth.UserNotFound <==>
              email != "" && forall id :: id in old(store.users) ==> old(store.users)[id].email != ToLower(email)
    ensures r in {Auth.ResendInputRequired, Auth.UserNotFound, Auth.AlreadyVerified} ==> store.users == old(store.users)
    ensures who.Some? ==> who.value in old(store.users) && old(store.users)[who.value].email == ToLower(email)
    ensures r == Auth.AlreadyVerified ==> who.Some? && old(store.users)[who.value].verification.email
    ensures r == Auth.ServerError || r == Auth.CodeSent ==>
              who.Some? && !old(store.users)[who.value].verification.email
              && store.users == old(store.users)[who.value := IssueEmailToken(old(store.users)[who.value], token, now)]
              && (r == Auth.ServerError <==> !delivered(EmailChannel))
  {
    who := None;
    if email == "" {
      return Auth.ResendInputRequired, who;
    }
    var found := store.FindOne((a: Account) => a.email == ToLower(email));
    if found.None? {
      return Auth.UserNotFound, who;
    }
    var id := found.value;
    who := found;
    var user := store.users[id];
    if user.verification.email {
      return Auth.AlreadyVerified, who;
    }
    user := user.(emailVerificationToken := Some(token));
    user := user.(emailVerificationExpires := Some(now + VerificationWindowMs));
    store.Save(id, user);
    if !delivered(EmailChannel) {
      return Auth.ServerError, who;
    }
    r := Auth.CodeSent;
  }

  /** `resendVerificationPhone`. */
  method ResendVerificationPhone(store: UserCollection, phoneNumber: string, code: string, now: nat,
                                 delivered: Channel -> bool) returns (r: Auth.ResendOutcome, who: Option<UserId>)
    requires store.Valid()
    modifies store
    ensures store.Valid()
    ensures phoneNumber == "" <==> r == Auth.ResendInputRequired
    ensures r != Auth.SendFailed
    ensures who.Some? <==> r in {Auth.AlreadyVerified, Auth.ServerError, Auth.CodeSent}
    ensures who.Some? ==> who.value in old(store.users) && (r == Auth.AlreadyVerified <==> old(store.users)[who.value].verification.phone)
    ensures r == Auth.UserNotFound <==>
              phoneNumber != "" && forall id :: id in old(store.users) ==> old(store.users)[id].phoneNumber != phoneNumber
    ensures r in {Auth.ResendInputRequired, Auth.UserNotFound, Auth.AlreadyVerified} ==> store.users == old(store.users)
    ensures who.Some? ==> who.value in old(store.users) && old(store.users)[who.value].phoneNumber == phoneNumber
    ensures r == Auth.AlreadyVerified ==> who.Some? && old(store.users)[who.value].verification.phone
    ensures r == Auth.ServerError || r == Auth.CodeSent ==>
              who.Some? && !old(store.users)[who.value].verification.phone
              && store.users == old(store.users)[who.value := IssuePhoneToken(old(store.users)[who.value], code, now)]
              && (r == Auth.ServerError <==> !delivered(PhoneChannel))
  {
    who := None;
    if phoneNumber == "" {
      return Auth.ResendInputRequired, who;
    }
    var found := store.FindOne((a: Account) => a.phoneNumber == phoneNumber);
    if found.None? {
      return Auth.UserNotFound, who;
    }
    var id := found.value;
    who := found;
    var user := store.users[id];
    if user.verification.phone {
      return Auth.AlreadyVerified, who;
    }
    user := user.(phoneVerificationToken := Some(code));
    user := user.(phoneVerificationExpires := Some(now + VerificationWindowMs));
    store.Save(id, user);
    if !delivered(PhoneChannel) {
      return Auth.ServerError, who;
    }
    r := Auth.CodeSent;
  }
}
