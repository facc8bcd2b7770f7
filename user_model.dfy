/** The user record of web/backend/src/models/User.js: the fields the account
    lifecycle reads and writes, the `isLocked` and `incLoginAttempts` methods,
    the trust-score pre-save hook and the `age` and `fullAddress` virtuals. */
module UserModel {
  import opened Common

  /** 30 minutes: lifetime of a verification code, token or reset code. */
  const VerificationWindowMs: nat := 30 * 60 * 1000
  /** Failed sign-ins after which the account is locked. */
  const MaxLoginAttempts: nat := 5
  /** 2 hours: how long a lock lasts. */
  const LockTimeMs: nat := 2 * 60 * 60 * 1000

  datatype Channel = EmailChannel | PhoneChannel

  /** The `accountStatus` enum, spelled as the schema spells it. */
  datatype Status = Active | Suspend | Banned | Pending | Deactivated

  function StatusName(s: Status): string
  {
    match s
    case Active => "active"
    case Suspend => "suspend"
    case Banned => "banned"
    case Pending => "pending"
    case Deactivated => "deactivated"
  }

  datatype Role = Driver | Passenger | Host | Traveler

  /** The values the schema's `gender` enum admits. */
  const GenderValues: set<string> := {"male", "female", "other", "prefer-not-to-say"}

  /** A calendar date as (year, month, day of month). */
  datatype Date = Date(year: int, month: int, day: int)

  /** The `address` sub-object; an absent string is the empty string. */
  datatype Address = Address(street: string, city: string, postalCode: string, country: string, state: string)

  datatype Verification = Verification(email: bool, phone: bool, identity: bool, verifyAt: Option<nat>)

  /** One user document. Instants are milliseconds since the epoch; an
      absent optional field is `None`; absent strings are "". */
  datatype Account = Account(
    fullname: string,
    nickname: string,
    email: string,
    password: string,
    phoneNumber: string,
    dateOfBirth: Option<Date>,
    gender: Option<string>,
    address: Option<Address>,
    verification: Verification,
    trustScore: int,
    roles: seq<Role>,
    status: Status,
    isOnboarded: bool,
    onboardingStep: nat,
    deletedAt: Option<nat>,
    lastLogin: Option<nat>,
    lastActive: nat,
    loginAttempts: nat,
    lockUntil: Option<nat>,
    passwordResetToken: Option<string>,
    passwordResetExpires: Option<nat>,
    verificationCode: Option<string>,
    verificationExpires: Option<nat>,
    verificationMethod: Option<Channel>,
    emailVerificationToken: Option<string>,
    emailVerificationExpires: Option<nat>,
    phoneVerificationToken: Option<string>,
    phoneVerificationExpires: Option<nat>)

  /** A stored single-use secret that equals `supplied` and whose expiry is
      strictly later than `now` (the `{field: code, expires: {$gt: now}}`
      filter of every verification and reset lookup). */
  predicate SecretLive(secret: Option<string>, expires: Option<nat>, supplied: string, now: nat)
  {
    secret == Some(supplied) && expires.Some? && expires.value > now
  }

  // ---------------------------------------------------------------- trust score

  /** The weighted sum computed by the pre-save hook. */
  function TrustScore(v: Verification): (score: int)
    ensures 0 <= score <= 100
    ensures score == 0 <==> !v.email && !v.phone && !v.identity
    ensures score == 100 <==> v.email && v.phone && v.identity
  {
    (if v.email then 20 else 0) + (if v.phone then 30 else 0) + (if v.identity then 50 else 0)
  }

  /** The `pre("save")` hook: `updated` is about to replace `stored`; the
      trust score is recomputed exactly when `verification` was modified. */
  function PreSave(stored: Account, updated: Account): (saved: Account)
    ensures saved == updated.(trustScore := saved.trustScore)
    ensures updated.verification != stored.verification ==> saved.trustScore == TrustScore(saved.verification)
    ensures updated.verification == stored.verification ==> saved.trustScore == updated.trustScore
  {
    if updated.verification != stored.verification then updated.(trustScore := TrustScore(updated.verification))
    else updated
  }

  /** Whatever a handler changes, as long as it does not write the trust
      score itself, a saved record whose score was consistent stays so. */
  lemma PreSaveKeepsScoreConsistent(stored: Account, updated: Account)
    requires stored.trustScore == TrustScore(stored.verification)
    requires updated.trustScore == stored.trustScore
    ensures PreSave(stored, updated).trustScore == TrustScore(updated.verification)
    ensures 0 <= PreSave(stored, updated).trustScore <= 100
  {
  }

  // ---------------------------------------------------------------- lockout

  /** `isLocked`: a lock instant is set and lies strictly in the future. */
  predicate IsLocked(a: Account, now: nat)
  {
    a.lockUntil.Some? && a.lockUntil.value > now
  }

  /** The update document `incLoginAttempts` builds: either restart the
      count at one and drop an expired lock, or increment the count and
      possibly set a new lock. */
  datatype AttemptsUpdate = RestartCount | Increment(setLock: Option<nat>)

  function LoginAttemptsUpdate(a: Account, now: nat): (u: AttemptsUpdate)
    ensures u.RestartCount? <==> a.lockUntil.Some? && a.lockUntil.value < now
    ensures u.Increment? ==> (u.setLock.Some? <==> a.loginAttempts + 1 >= MaxLoginAttempts && !IsLocked(a, now))
    ensures u.Increment? && u.setLock.Some? ==> u.setLock.value == now + LockTimeMs
  {
    if a.lockUntil.Some? && a.lockUntil.value < now then RestartCount
    else if a.loginAttempts + 1 >= MaxLoginAttempts && !IsLocked(a, now) then Increment(Some(now + LockTimeMs))
    else Increment(None)
  }

  /** `updateOne` with that update document: `$set`/`$unset` on the lock,
      `$set` or `$inc` on the counter. */
  function ApplyAttemptsUpdate(a: Account, u: AttemptsUpdate): Account
  {
    match u
    case RestartCount => a.(loginAttempts := 1, lockUntil := None)
    case Increment(None) => a.(loginAttempts := a.loginAttempts + 1)
    case Increment(Some(t)) => a.(loginAttempts := a.loginAttempts + 1, lockUntil := Some(t))
  }

  /** `incLoginAttempts`, as the record it leaves in the collection. */
  function IncLoginAttempts(a: Account, now: nat): (r: Account)
    ensures r == a.(loginAttempts := r.loginAttempts, lockUntil := r.lockUntil)
    ensures a.lockUntil.Some? && a.lockUntil.value < now ==> r.loginAttempts == 1 && r.lockUntil.None?
    ensures !(a.lockUntil.Some? && a.lockUntil.value < now) ==> r.loginAttempts == a.loginAttempts + 1
    ensures IsLocked(a, now) ==> r.lockUntil == a.lockUntil
    ensures IsLocked(r, now) <==>
              IsLocked(a, now) || (!(a.lockUntil.Some? && a.lockUntil.value < now) && a.loginAttempts + 1 >= MaxLoginAttempts)
    ensures !IsLocked(a, now) && IsLocked(r, now) ==> r.lockUntil == Some(now + LockTimeMs)
  {
    ApplyAttemptsUpdate(a, LoginAttemptsUpdate(a, now))
  }

  // ---------------------------------------------------------------- virtuals

  /** Whole years from `birth` to `today`: the year difference, less one
      when today's (month, day) comes before the birth (month, day). */
  function AgeOn(birth: Date, today: Date): int
  {
    var years := today.year - birth.year;
    var monthDiff := today.month - birth.month;
    if monthDiff < 0 || (monthDiff == 0 && today.day < birth.day) then years - 1 else years
  }

  /** The `age` virtual: null without a date of birth. */
  function Age(dateOfBirth: Option<Date>, today: Date): (age: Option<int>)
    ensures age.None? <==> dateOfBirth.None?
  {
    match dateOfBirth
    case None => None
    case Some(birth) => Some(AgeOn(birth, today))
  }

  /** Lexicographic order on (year, month, day). */
  predicate OnOrAfter(d: Date, e: Date)
  {
    d.year > e.year || (d.year == e.year && (d.month > e.month || (d.month == e.month && d.day >= e.day)))
  }

  /** Reaching age `n` means that today is on or after the `n`-th
      anniversary of the birth date, read as a (year, month, day) triple. */
  lemma AgeReachedIff(birth: Date, today: Date, n: int)
    ensures AgeOn(birth, today) >= n <==> OnOrAfter(today, Date(birth.year + n, birth.month, birth.day))
  {
  }

  /** On the `n`-th birthday the age is exactly `n`; on any day from the
      `(n - 1)`-th birthday up to (not including) the `n`-th, it is `n - 1`. */
  lemma AgeOnBirthday(birth: Date, n: int, today: Date)
    ensures AgeOn(birth, Date(birth.year + n, birth.month, birth.day)) == n
    ensures (OnOrAfter(today, Date(birth.year + n - 1, birth.month, birth.day))
             && !OnOrAfter(today, Date(birth.year + n, birth.month, birth.day))) ==> AgeOn(birth, today) == n - 1
  {
    AgeReachedIff(birth, today, n);
    AgeReachedIff(birth, today, n - 1);
  }

  /** The `fullAddress` virtual: the non-empty street, city, postal code and
      country, in that order, joined by ", "; `state` is never included. */
  function FullAddress(address: Option<Address>): (r: string)
    ensures address.None? ==> r == ""
    ensures address.Some? ==>
              (r == "" <==> address.value.street == "" && address.value.city == ""
                            && address.value.postalCode == "" && address.value.country == "")
  {
    match address
    case None => ""
    case Some(ad) =>
      var fields := [ad.street, ad.city, ad.postalCode, ad.country];
      var parts := NonEmpty(fields);
      JoinNonEmptyIsEmptyIff(parts, ", ");
      assert (forall k :: 0 <= k < |fields| ==> fields[k] == "") <==>
             ad.street == "" && ad.city == "" && ad.postalCode == "" && ad.country == "" by {
        assert fields[0] == ad.street && fields[1] == ad.city && fields[2] == ad.postalCode && fields[3] == ad.country;
      }
      Join(parts, ", ")
  }

  lemma FullAddressAllParts(ad: Address)
    requires ad.street != "" && ad.city != "" && ad.postalCode != "" && ad.country != ""
    ensures FullAddress(Some(ad)) == ad.street + ", " + ad.city + ", " + ad.postalCode + ", " + ad.country
  {
    var parts := [ad.street, ad.city, ad.postalCode, ad.country];
    assert NonEmpty(parts[3..]) == [ad.country];
    assert NonEmpty(parts[2..]) == [ad.postalCode, ad.country];
    assert NonEmpty(parts[1..]) == [ad.city, ad.postalCode, ad.country];
    assert NonEmpty(parts) == parts;
    assert Join(parts[3..], ", ") == ad.country;
    assert Join(parts[2..], ", ") == ad.postalCode + ", " + ad.country;
    assert Join(parts[1..], ", ") == ad.city + ", " + ad.postalCode + ", " + ad.country;
  }

  /** The list holding `s` when it is not empty, and nothing otherwise. */
  function Kept(s: string): seq<string>
  {
    if s == "" then [] else [s]
  }

  /** Filtering four strings keeps each one exactly when it is not empty. */
  lemma NonEmptyOfFour(w: string, x: string, y: string, z: string)
    ensures NonEmpty([w, x, y, z]) == Kept(w) + Kept(x) + Kept(y) + Kept(z)
  {
    calc {
      NonEmpty([w, x, y, z]);
    == { assert [w, x, y, z] == [w] + [x, y, z]; NonEmptyCons(w, [x, y, z]); }
      Kept(w) + NonEmpty([x, y, z]);
    == { assert [x, y, z] == [x] + [y, z]; NonEmptyCons(x, [y, z]); }
      Kept(w) + (Kept(x) + NonEmpty([y, z]));
    == { assert [y, z] == [y] + [z]; NonEmptyCons(y, [z]); NonEmptyCons(z, []); assert [z] + [] == [z]; }
      Kept(w) + (Kept(x) + (Kept(y) + Kept(z)));
    }
  }

  /** Filtering a list that starts with `s` keeps `s` exactly when it is not empty. */
  lemma NonEmptyCons(s: string, rest: seq<string>)
    ensures NonEmpty([s] + rest) == Kept(s) + NonEmpty(rest)
  {
    NonEmptyAppend([s], rest);
    NonEmptySingle(s);
  }

  /** The full address keeps each of street, city, postal code and country
      exactly when it is not empty, in that order, joined by ", ". */
  lemma FullAddressParts(ad: Address)
    ensures FullAddress(Some(ad)) ==
            Join(Kept(ad.street) + Kept(ad.city) + Kept(ad.postalCode) + Kept(ad.country), ", ")
  {
    NonEmptyOfFour(ad.street, ad.city, ad.postalCode, ad.country);
  }

  /** With only street and country given, the result is "street, country". */
  lemma FullAddressStreetAndCountry(ad: Address)
    requires ad.street != "" && ad.city == "" && ad.postalCode == "" && ad.country != ""
    ensures FullAddress(Some(ad)) == ad.street + ", " + ad.country
  {
    FullAddressParts(ad);
    assert Kept(ad.street) + Kept(ad.city) + Kept(ad.postalCode) + Kept(ad.country) == [ad.street, ad.country];
    assert [ad.street, ad.country][1..] == [ad.country];
  }

  lemma FullAddressIgnoresState(ad: Address, state: string)
    ensures FullAddress(Some(ad.(state := state))) == FullAddress(Some(ad))
  {
  }

  // ---------------------------------------------------------------- lockout scenario

  /** A run of failed sign-ins, each at its own instant: the record left by
      calling `incLoginAttempts` once per instant of `times`. */
  function FailedAttempts(a: Account, times: seq<nat>): Account
    decreases |times|
  {
    if times == [] then a else FailedAttempts(IncLoginAttempts(a, times[0]), times[1..])
  }

  /** Fewer than five failures from a clean record only count. */
  lemma {:induction false} FewFailuresDoNotLock(a: Account, times: seq<nat>)
    requires a.lockUntil.None? && a.loginAttempts + |times| < MaxLoginAttempts
    ensures FailedAttempts(a, times).lockUntil.None?
    ensures FailedAttempts(a, times).loginAttempts == a.loginAttempts + |times|
    decreases |times|
  {
    if times != [] {
      FewFailuresDoNotLock(IncLoginAttempts(a, times[0]), times[1..]);
    }
  }

  /** Five consecutive failures on an unlocked record with no failures yet
      lock it for two hours from the fifth one. */
  lemma FifthFailureLocks(a: Account, times: seq<nat>)
    requires a.lockUntil.None? && a.loginAttempts == 0 && |times| == MaxLoginAttempts
    ensures FailedAttempts(a, times).lockUntil == Some(times[4] + LockTimeMs)
    ensures FailedAttempts(a, times).loginAttempts == 5
    ensures forall t :: times[4] <= t < times[4] + LockTimeMs ==> IsLocked(FailedAttempts(a, times), t)
  {
    FewFailuresDoNotLock(a, times[..4]);
    var b := FailedAttempts(a, times[..4]);
    FailedAttemptsSplit(a, times[..4], times[4..]);
    assert times[..4] + times[4..] == times;
    assert FailedAttempts(b, times[4..]) == FailedAttempts(IncLoginAttempts(b, times[4]), []);
  }

  lemma {:induction false} FailedAttemptsSplit(a: Account, xs: seq<nat>, ys: seq<nat>)
    ensures FailedAttempts(a, xs + ys) == FailedAttempts(FailedAttempts(a, xs), ys)
    decreases |xs|
  {
    if xs != [] {
      assert (xs + ys)[1..] == xs[1..] + ys;
      FailedAttemptsSplit(IncLoginAttempts(a, xs[0]), xs[1..], ys);
    } else {
      assert xs + ys == ys;
    }
  }
}
