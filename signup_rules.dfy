/** The request checks and the uniqueness-conflict report that both signup
    handlers (controllers/authControllers.js and
    controllers/signupControllers.js) run before creating an account. */
module SignupRules {
  import opened Common
  import opened UserModel

  /** The body of a signup request; a missing string is "". */
  datatype SignupRequest = SignupRequest(
    fullname: string,
    nickname: string,
    email: string,
    password: string,
    phoneNumber: string,
    dateOfBirth: Option<Date>,
    gender: string,
    verificationMethod: string)

  const MinimumSignupAge: int := 18
  const MinimumPasswordLength: nat := 6

  // ---------------------------------------------------------------- character classes

  /** `[a-zA-Z0-9_]` */
  predicate IsWordChar(c: char)
  {
    ('a' <= c <= 'z') || ('A' <= c <= 'Z') || IsAsciiDigit(c) || c == '_'
  }

  /** `[^\s@]+` */
  predicate IsEmailAtom(s: string)
  {
    |s| > 0 && forall i :: 0 <= i < |s| ==> !IsJsWhitespace(s[i]) && s[i] != '@'
  }

  /** `/^[^\s@]+@[^\s@]+\.[^\s@]+$/`: a local part, one '@', a domain part,
      a '.', and a last part, each part non-empty and free of whitespace
      and '@'. */
  predicate EmailShaped(s: string)
  {
    exists at, dot ::
      0 <= at < dot < |s| && s[at] == '@' && s[dot] == '.'
      && IsEmailAtom(s[..at]) && IsEmailAtom(s[at + 1..dot]) && IsEmailAtom(s[dot + 1..])
  }

  /** `/^[a-zA-Z0-9_]{3,20}$/` */
  predicate NicknameShaped(s: string)
  {
    3 <= |s| <= 20 && forall i :: 0 <= i < |s| ==> IsWordChar(s[i])
  }

  /** `[\s()-]`, the characters removed from a phone number before it is checked. */
  predicate IsPhonePunctuation(c: char)
  {
    IsJsWhitespace(c) || c == '(' || c == ')' || c == '-'
  }

  /** `phoneNumber.replace(/[\s()-]/g, '')` */
  function StripPhonePunctuation(s: string): (r: string)
    ensures |r| <= |s|
    ensures forall i :: 0 <= i < |r| ==> !IsPhonePunctuation(r[i])
    ensures (forall i :: 0 <= i < |s| ==> !IsPhonePunctuation(s[i])) ==> r == s
  {
    if s == [] then []
    else if IsPhonePunctuation(s[0]) then StripPhonePunctuation(s[1..])
    else [s[0]] + StripPhonePunctuation(s[1..])
  }

  /** Stripping works character by character: it distributes over concatenation. */
  lemma {:induction false} StripDistributes(a: string, b: string)
    ensures StripPhonePunctuation(a + b) == StripPhonePunctuation(a) + StripPhonePunctuation(b)
  {
    if a != [] {
      assert (a + b)[1..] == a[1..] + b;
      StripDistributes(a[1..], b);
    } else {
      assert a + b == b;
    }
  }

  /** `/^\+?[1-9]\d{1,14}$/`: an optional '+', then 2 to 15 digits, the
      first of them not '0'. */
  predicate PhonePattern(s: string)
  {
    var digits := if |s| > 0 && s[0] == '+' then s[1..] else s;
    2 <= |digits| <= 15 && '1' <= digits[0] <= '9'
    && forall i :: 0 <= i < |digits| ==> IsAsciiDigit(digits[i])
  }

  // ---------------------------------------------------------------- the check chain

  /** The checks of `signup`, in the order they run. */
  datatype Check = RequiredFields | MethodChosen | EmailFormat | PasswordLength | NicknameFormat | PhoneFormat | MinimumAge

  function Rank(c: Check): nat
  {
    match c
    case RequiredFields => 0
    case MethodChosen => 1
    case EmailFormat => 2
    case PasswordLength => 3
    case NicknameFormat => 4
    case PhoneFormat => 5
    case MinimumAge => 6
  }

  /** Whether the request passes one check, taken on its own. */
  predicate Passes(req: SignupRequest, today: Date, c: Check)
  {
    match c
    case RequiredFields =>
      req.fullname != "" && req.nickname != "" && req.email != "" && req.password != "" && req.phoneNumber != ""
    case MethodChosen => req.verificationMethod == "email" || req.verificationMethod == "phone"
    case EmailFormat => EmailShaped(req.email)
    case PasswordLength => Utf16Length(req.password) >= MinimumPasswordLength
    case NicknameFormat => NicknameShaped(req.nickname)
    case PhoneFormat => PhonePattern(StripPhonePunctuation(req.phoneNumber))
    case MinimumAge => req.dateOfBirth.None? || AgeOn(req.dateOfBirth.value, today) >= MinimumSignupAge
  }

  /** The check that decides the 400 response: the first one, in order,
      that the request fails; `None` when it passes all of them. */
  function ValidateSignup(req: SignupRequest, today: Date): (failed: Option<Check>)
    ensures failed.None? <==> forall c :: Passes(req, today, c)
    ensures failed.Some? ==> !Passes(req, today, failed.value)
    ensures failed.Some? ==> forall c :: Rank(c) < Rank(failed.value) ==> Passes(req, today, c)
  {
    if !Passes(req, today, RequiredFields) then Some(RequiredFields)
    else if !Passes(req, today, MethodChosen) then Some(MethodChosen)
    else if !Passes(req, today, EmailFormat) then Some(EmailFormat)
    else if !Passes(req, today, PasswordLength) then Some(PasswordLength)
    else if !Passes(req, today, NicknameFormat) then Some(NicknameFormat)
    else if !Passes(req, today, PhoneFormat) then Some(PhoneFormat)
    else if !Passes(req, today, MinimumAge) then Some(MinimumAge)
    else None
  }

  /** The channel of a request that passed the method check. */
  function ChosenChannel(req: SignupRequest): Channel
  {
    if req.verificationMethod == "email" then EmailChannel else PhoneChannel
  }

  /** The 400 response body's `message` for a failed check. */
  function CheckMessage(c: Check): string
  {
    match c
    case RequiredFields => "Please provide all required fields"
    case MethodChosen => "Please select a verification method (email or phone)"
    case EmailFormat => "Invalid email format"
    case PasswordLength => "Password must be at least 6 characters"
    case NicknameFormat => "Nickname must be 3-20 characters and contains only letters, numbers and underscores"
    case PhoneFormat => "Invalid phone number format"
    case MinimumAge => "You must be at least 18 years old to register"
  }

  /** The age check passes exactly from the 18th birthday on. */
  lemma AgeBoundary(req: SignupRequest, birth: Date, today: Date)
    requires req.dateOfBirth == Some(birth)
    ensures Passes(req, today, MinimumAge) <==> OnOrAfter(today, Date(birth.year + 18, birth.month, birth.day))
  {
    AgeReachedIff(birth, today, 18);
  }

  /** The password length counts UTF-16 code units: three characters
      outside the Basic Multilingual Plane make six. */
  lemma AstralPasswordIsLongEnough(req: SignupRequest, today: Date)
    requires req.password == "\U{1F600}\U{1F600}\U{1F600}"
    ensures |req.password| == 3 && Passes(req, today, PasswordLength)
  {
    var p := req.password;
    assert p[1..][1..][1..] == [];
    assert Utf16Length(p[1..][1..]) == 2;
  }

  lemma ExampleEmailIsShaped()
    ensures EmailShaped("ana@x.com")
  {
    var s := "ana@x.com";
    assert s[..3] == "ana" && s[4..5] == "x" && s[6..] == "com";
    assert 0 <= 3 < 5 < |s| && s[3] == '@' && s[5] == '.';
    assert IsEmailAtom(s[..3]) && IsEmailAtom(s[4..5]) && IsEmailAtom(s[6..]);
  }

  lemma DigitIsNotPunctuation(c: char)
    requires c == '+' || IsAsciiDigit(c)
    ensures !IsPhonePunctuation(c)
  {
  }

  lemma ExamplePhoneIsValid()
    ensures PhonePattern(StripPhonePunctuation("+15551234567"))
  {
    var s := "+15551234567";
    var digits := s[1..];
    assert digits == "15551234567";
    assert forall i | 0 <= i < |digits| :: IsAsciiDigit(digits[i]);
    forall i | 0 <= i < |s| ensures !IsPhonePunctuation(s[i]) {
      DigitIsNotPunctuation(s[i]);
    }
  }

  lemma ExampleNicknameIsShaped(req: SignupRequest, today: Date)
    requires req.nickname == "ana_99"
    ensures Passes(req, today, NicknameFormat)
  {
    assert forall i | 0 <= i < |req.nickname| :: IsWordChar(req.nickname[i]);
  }

  /** The example request "ana_99" / "ana@x.com" / "secret1" /
      "+15551234567", verified by email, passes every check. */
  lemma ExampleRequestIsValid(req: SignupRequest, today: Date)
    requires req == SignupRequest("Ana Lee", "ana_99", "ana@x.com", "secret1", "+15551234567", None, "", "email")
    ensures ValidateSignup(req, today).None?
  {
    ExampleEmailIsShaped();
    ExamplePhoneIsValid();
    ExampleNicknameIsShaped(req, today);
    forall c ensures Passes(req, today, c) { }
  }

  /** An email without a dot after the '@' is refused. */
  lemma EmailWithoutDotIsRefused()
    ensures !EmailShaped("ana@x")
  {
  }

  // ---------------------------------------------------------------- conflicts

  /** The field a 409 response names, by priority. */
  datatype ConflictField = EmailTaken | NicknameTaken | PhoneTaken

  function Priority(f: ConflictField): nat
  {
    match f
    case EmailTaken => 0
    case NicknameTaken => 1
    case PhoneTaken => 2
  }

  /** Whether a stored document collides with the request on one field:
      email and nickname compared lower-cased, the phone number exactly. */
  predicate CollidesOn(a: Account, req: SignupRequest, f: ConflictField)
  {
    match f
    case EmailTaken => a.email == ToLower(req.email)
    case NicknameTaken => a.nickname == ToLower(req.nickname)
    case PhoneTaken => a.phoneNumber == req.phoneNumber
  }

  /** The `$or` filter of the uniqueness lookup. */
  predicate Collides(a: Account, req: SignupRequest)
  {
    a.email == ToLower(req.email) || a.nickname == ToLower(req.nickname) || a.phoneNumber == req.phoneNumber
  }

  /** The field reported for the document the lookup returned: the first of
      email, nickname, phone number on which that document collides. */
  function ReportedConflict(existing: Account, req: SignupRequest): (r: Option<ConflictField>)
    ensures r.None? <==> !Collides(existing, req)
    ensures r.Some? ==> CollidesOn(existing, req, r.value)
    ensures r.Some? ==> forall f :: Priority(f) < Priority(r.value) ==> !CollidesOn(existing, req, f)
  {
    if existing.email == ToLower(req.email) then Some(EmailTaken)
    else if existing.nickname == ToLower(req.nickname) then Some(NicknameTaken)
    else if existing.phoneNumber == req.phoneNumber then Some(PhoneTaken)
    else None
  }

  /** The 409 response body's `field` and `message`. */
  function ConflictFieldName(f: ConflictField): string
  {
    match f
    case EmailTaken => "email"
    case NicknameTaken => "nickname"
    case PhoneTaken => "phoneNumber"
  }

  function ConflictMessage(f: ConflictField): string
  {
    match f
    case EmailTaken => "Email is already registered"
    case NicknameTaken => "Nickname is already taken"
    case PhoneTaken => "Phone number is already registered"
  }
}
