/** The field validation rules of the two signup steps.

    A schema gives each field an ordered list of checks. As zod does, every
    check of a field is run and every failure is reported, in order; the form
    resolver then keeps the first reported message of each field. A record is
    accepted when no field has a message. */
module Validation {

  /** The fields of the signup forms; step 1 has only Email and TlrCode. */
  datatype Field = Email | FirstName | LastName | DateOfBirth | Phone | Nif | Address | TlrCode

  datatype Step1Data = Step1Data(email: string, tlrCode: string)

  datatype Step2Data = Step2Data(
    email: string,
    firstName: string,
    lastName: string,
    dateOfBirth: string,
    phone: string,
    nif: string,
    address: string,
    tlrCode: string)

  /** zod's e-mail test. Its regular expression is library code, so the model
      keeps it as a parameter and assumes nothing about it. */
  type EmailRule = string -> bool

  type FieldErrors = map<Field, string>

  /** One check of a string schema with the message it reports on failure. */
  datatype Check =
    | MinLength(min: nat, message: string)            // .min(n, message)
    | Length(exact: nat, message: string)             // .length(n, message)
    | DigitRun(count: nat, message: string)           // .regex(/^\d{count}$/, message)
    | EmailShape(isEmail: EmailRule, message: string) // .email(message)

  /** `\d` in a regular expression without the `u` flag: an ASCII digit. */
  predicate IsAsciiDigit(c: char) {
    '0' <= c <= '9'
  }

  predicate AllAsciiDigits(s: string) {
    forall i :: 0 <= i < |s| ==> IsAsciiDigit(s[i])
  }

  /** Whether the whole of `s` matches `^\d{n}$`, read left to right. */
  predicate MatchesDigitRun(s: string, n: nat)
    decreases n
  {
    if n == 0 then s == []
    else s != [] && IsAsciiDigit(s[0]) && MatchesDigitRun(s[1..], n - 1)
  }

  /** `^\d{n}$` matches exactly the strings of n ASCII digits. */
  lemma {:induction false} DigitRunIff(s: string, n: nat)
    ensures MatchesDigitRun(s, n) <==> |s| == n && AllAsciiDigits(s)
  {
    if n > 0 && s != [] {
      DigitRunIff(s[1..], n - 1);
      assert AllAsciiDigits(s) <==> IsAsciiDigit(s[0]) && AllAsciiDigits(s[1..]) by {
        if IsAsciiDigit(s[0]) && AllAsciiDigits(s[1..]) {
          forall i | 0 <= i < |s| ensures IsAsciiDigit(s[i]) {
            if i > 0 { assert s[i] == s[1..][i - 1]; }
          }
        }
      }
    }
  }

  predicate Passes(c: Check, s: string) {
    match c
    case MinLength(n, _) => |s| >= n
    case Length(n, _) => |s| == n
    case DigitRun(n, _) => MatchesDigitRun(s, n)
    case EmailShape(isEmail, _) => isEmail(s)
  }

  /** The messages of every failing check, in the order the checks are declared. */
  function Issues(checks: seq<Check>, s: string): (messages: seq<string>) {
    if checks == [] then []
    else if Passes(checks[0], s) then Issues(checks[1..], s)
    else [checks[0].message] + Issues(checks[1..], s)
  }

  /** Issues are reported check by check, the first check's message first. */
  lemma IssuesCons(c: Check, rest: seq<Check>, s: string)
    ensures Issues([c] + rest, s) == (if Passes(c, s) then [] else [c.message]) + Issues(rest, s)
  {
    assert ([c] + rest)[1..] == rest;
  }

  /** A field reports nothing exactly when every one of its checks passes. */
  lemma {:induction false} IssuesEmptyIff(checks: seq<Check>, s: string)
    ensures Issues(checks, s) == [] <==> forall i :: 0 <= i < |checks| ==> Passes(checks[i], s)
  {
    if checks != [] {
      IssuesEmptyIff(checks[1..], s);
      if Passes(checks[0], s) && Issues(checks[1..], s) == [] {
        forall i | 0 <= i < |checks| ensures Passes(checks[i], s) {
          if i > 0 { assert checks[i] == checks[1..][i - 1]; }
        }
      }
    }
  }

  /** The first reported message is the one of the first failing check. */
  lemma {:induction false} FirstIssueIsFirstFailure(checks: seq<Check>, s: string, k: nat)
    requires k < |checks| && !Passes(checks[k], s)
    requires forall j :: 0 <= j < k ==> Passes(checks[j], s)
    ensures Issues(checks, s) != [] && Issues(checks, s)[0] == checks[k].message
  {
    if k > 0 {
      assert Passes(checks[0], s);
      FirstIssueIsFirstFailure(checks[1..], s, k - 1);
    }
  }

  /** Every field the step-2 form has; step 1 uses the first and the last. */
  const Fields: set<Field> := {Email, FirstName, LastName, DateOfBirth, Phone, Nif, Address, TlrCode}

  // ---------------------------------------------------------------- step 1

  const EmailRequired := "Email is required"
  const EmailInvalid := "Please enter a valid email address"
  const TlrRequired := "TLR Code is required"
  const TlrNotThree := "TLR Code must be exactly 3 digits"
  const TlrNotNumeric := "TLR Code must contain only numbers"

  function Step1EmailChecks(isEmail: EmailRule): (checks: seq<Check>) {
    [MinLength(1, EmailRequired), EmailShape(isEmail, EmailInvalid)]
  }

  function Step1TlrChecks(): (checks: seq<Check>) {
    [MinLength(1, TlrRequired), Length(3, TlrNotThree), DigitRun(3, TlrNotNumeric)]
  }

  /** Every message `step1Schema` reports for field `f`, in order. */
  function Step1Issues(r: Step1Data, f: Field, isEmail: EmailRule): (messages: seq<string>) {
    match f
    case Email => Issues(Step1EmailChecks(isEmail), r.email)
    case TlrCode => Issues(Step1TlrChecks(), r.tlrCode)
    case _ => []
  }

  /** The message a failing TLR code shows in step 1: "required" for the empty
      code, the length message for any other code not of length 3, else the
      digits-only message. */
  function Step1TlrMessage(code: string): (message: string) {
    if code == "" then TlrRequired
    else if |code| != 3 then TlrNotThree
    else TlrNotNumeric
  }

  /** `step1Schema` as the resolver reports it: an e-mail that is empty or
      fails the e-mail rule, and a TLR code that is not three ASCII digits,
      each with the first message its checks report. */
  function Step1Errors(r: Step1Data, isEmail: EmailRule): (e: FieldErrors)
    ensures e.Keys <= {Email, TlrCode}
    ensures Email in e <==> r.email == "" || !isEmail(r.email)
    ensures Email in e ==> e[Email] == (if r.email == "" then EmailRequired else EmailInvalid)
    ensures TlrCode in e <==> !(|r.tlrCode| == 3 && AllAsciiDigits(r.tlrCode))
    ensures TlrCode in e ==> e[TlrCode] == Step1TlrMessage(r.tlrCode)
  {
    Step1EmailIssues(r, isEmail);
    Step1TlrIssues(r, isEmail);
    map f | f in {Email, TlrCode} && Step1Issues(r, f, isEmail) != [] :: Step1Issues(r, f, isEmail)[0]
  }

  predicate Step1Valid(r: Step1Data, isEmail: EmailRule) {
    Step1Errors(r, isEmail) == map[]
  }

  /** The e-mail checks of step 1 report "required" for the empty string and
      then whatever the e-mail rule rejects. */
  lemma Step1EmailIssues(r: Step1Data, isEmail: EmailRule)
    ensures Step1Issues(r, Email, isEmail) ==
      (if r.email == "" then [EmailRequired] else []) + (if isEmail(r.email) then [] else [EmailInvalid])
  {
    var c1, c2 := MinLength(1, EmailRequired), EmailShape(isEmail, EmailInvalid);
    assert Step1EmailChecks(isEmail) == [c1] + [c2];
    IssuesCons(c1, [c2], r.email);
    IssuesCons(c2, [], r.email);
  }

  /** The TLR-code checks of step 1 report required, length and digits, in that order. */
  lemma Step1TlrIssues(r: Step1Data, isEmail: EmailRule)
    ensures Step1Issues(r, TlrCode, isEmail) ==
      (if r.tlrCode == "" then [TlrRequired] else [])
      + (if |r.tlrCode| != 3 then [TlrNotThree] else [])
      + (if |r.tlrCode| == 3 && AllAsciiDigits(r.tlrCode) then [] else [TlrNotNumeric])
  {
    var c1, c2, c3 := MinLength(1, TlrRequired), Length(3, TlrNotThree), DigitRun(3, TlrNotNumeric);
    assert Step1TlrChecks() == [c1] + ([c2] + [c3]);
    IssuesCons(c1, [c2] + [c3], r.tlrCode);
    IssuesCons(c2, [c3], r.tlrCode);
    IssuesCons(c3, [], r.tlrCode);
    DigitRunIff(r.tlrCode, 3);
  }

  /** Exactly the records step 1 accepts. */
  lemma Step1Accepts(r: Step1Data, isEmail: EmailRule)
    ensures Step1Valid(r, isEmail) <==>
      r.email != "" && isEmail(r.email) && |r.tlrCode| == 3 && AllAsciiDigits(r.tlrCode)
  {
    if !Step1Valid(r, isEmail) {
      var f :| f in Step1Errors(r, isEmail);
    }
  }

  // ---------------------------------------------------------------- step 2

  const FirstNameRequired := "First name is required"
  const FirstNameShort := "First name must be at least 2 characters"
  const LastNameRequired := "Last name is required"
  const LastNameShort := "Last name must be at least 2 characters"
  const DateOfBirthRequired := "Date of birth is required"
  const PhoneRequired := "Phone number is required"
  const PhoneShort := "Phone number must be at least 9 digits"
  const NifRequired := "NIF is required"
  const NifShort := "NIF must be at least 9 digits"
  const AddressRequired := "Address is required"
  const AddressShort := "Address must be at least 10 characters"

  /** `.min(1, required).min(n, short)`: the chain most step-2 text fields use. */
  function RequiredMin(n: nat, required: string, short: string): (checks: seq<Check>) {
    [MinLength(1, required), MinLength(n, short)]
  }

  /** The checks `step2Schema` declares for field `f`. */
  function Step2Checks(f: Field, isEmail: EmailRule): (checks: seq<Check>) {
    match f
    case Email => [EmailShape(isEmail, EmailInvalid)]
    case FirstName => RequiredMin(2, FirstNameRequired, FirstNameShort)
    case LastName => RequiredMin(2, LastNameRequired, LastNameShort)
    case DateOfBirth => [MinLength(1, DateOfBirthRequired)]
    case Phone => RequiredMin(9, PhoneRequired, PhoneShort)
    case Nif => RequiredMin(9, NifRequired, NifShort)
    case Address => RequiredMin(10, AddressRequired, AddressShort)
    case TlrCode => [Length(3, TlrNotThree)]
  }

  function Step2Value(r: Step2Data, f: Field): (value: string) {
    match f
    case Email => r.email
    case FirstName => r.firstName
    case LastName => r.lastName
    case DateOfBirth => r.dateOfBirth
    case Phone => r.phone
    case Nif => r.nif
    case Address => r.address
    case TlrCode => r.tlrCode
  }

  function Step2Issues(r: Step2Data, f: Field, isEmail: EmailRule): (messages: seq<string>) {
    Issues(Step2Checks(f, isEmail), Step2Value(r, f))
  }

  /** The condition each step-2 field must meet: the e-mail rule for the
      e-mail, a minimum length for every other field, exactly 3 characters
      for the TLR code. */
  predicate Step2FieldOk(r: Step2Data, f: Field, isEmail: EmailRule) {
    match f
    case Email => isEmail(r.email)
    case FirstName => |r.firstName| >= 2
    case LastName => |r.lastName| >= 2
    case DateOfBirth => |r.dateOfBirth| >= 1
    case Phone => |r.phone| >= 9
    case Nif => |r.nif| >= 9
    case Address => |r.address| >= 10
    case TlrCode => |r.tlrCode| == 3
  }

  /** The message a failing step-2 field shows: "required" for an empty
      value, the length message for a short one. */
  function Step2FieldMessage(r: Step2Data, f: Field): (message: string) {
    match f
    case Email => EmailInvalid
    case FirstName => if r.firstName == "" then FirstNameRequired else FirstNameShort
    case LastName => if r.lastName == "" then LastNameRequired else LastNameShort
    case DateOfBirth => DateOfBirthRequired
    case Phone => if r.phone == "" then PhoneRequired else PhoneShort
    case Nif => if r.nif == "" then NifRequired else NifShort
    case Address => if r.address == "" then AddressRequired else AddressShort
    case TlrCode => TlrNotThree
  }

  /** `step2Schema` as the resolver reports it: each field is judged on its
      own value alone and shows the first message its checks report. */
  function Step2Errors(r: Step2Data, isEmail: EmailRule): (e: FieldErrors)
    ensures forall f :: f in e <==> !Step2FieldOk(r, f, isEmail)
    ensures forall f :: f in e ==> e[f] == Step2FieldMessage(r, f)
  {
    Step2IssuesMeaning(r, isEmail);
    map f | f in Fields && Step2Issues(r, f, isEmail) != [] :: Step2Issues(r, f, isEmail)[0]
  }

  predicate Step2Valid(r: Step2Data, isEmail: EmailRule) {
    Step2Errors(r, isEmail) == map[]
  }

  /** A required-then-minimum chain reports `required` for the empty string
      and `short` for anything shorter than n. */
  lemma RequiredMinIssues(n: nat, required: string, short: string, s: string)
    ensures Issues(RequiredMin(n, required, short), s) ==
      (if s == "" then [required] else []) + (if |s| < n then [short] else [])
  {
    var c1, c2 := MinLength(1, required), MinLength(n, short);
    assert RequiredMin(n, required, short) == [c1] + [c2];
    IssuesCons(c1, [c2], s);
    IssuesCons(c2, [], s);
  }

  /** A field with a single check reports that check's message or nothing. */
  lemma SingleCheckIssues(c: Check, s: string)
    ensures Issues([c], s) == if Passes(c, s) then [] else [c.message]
  {
    IssuesCons(c, [], s);
  }

  /** The messages each step-2 field reports, in order. */
  lemma Step2IssuesAt(r: Step2Data, f: Field, isEmail: EmailRule)
    ensures Step2Issues(r, f, isEmail) == match f
      case Email => if isEmail(r.email) then [] else [EmailInvalid]
      case FirstName =>
        (if r.firstName == "" then [FirstNameRequired] else []) + (if |r.firstName| < 2 then [FirstNameShort] else [])
      case LastName =>
        (if r.lastName == "" then [LastNameRequired] else []) + (if |r.lastName| < 2 then [LastNameShort] else [])
      case DateOfBirth => if r.dateOfBirth == "" then [DateOfBirthRequired] else []
      case Phone =>
        (if r.phone == "" then [PhoneRequired] else []) + (if |r.phone| < 9 then [PhoneShort] else [])
      case Nif =>
        (if r.nif == "" then [NifRequired] else []) + (if |r.nif| < 9 then [NifShort] else [])
      case Address =>
        (if r.address == "" then [AddressRequired] else []) + (if |r.address| < 10 then [AddressShort] else [])
      case TlrCode => if |r.tlrCode| == 3 then [] else [TlrNotThree]
  {
    match f
    case Email => SingleCheckIssues(EmailShape(isEmail, EmailInvalid), r.email);
    case FirstName => RequiredMinIssues(2, FirstNameRequired, FirstNameShort, r.firstName);
    case LastName => RequiredMinIssues(2, LastNameRequired, LastNameShort, r.lastName);
    case DateOfBirth => SingleCheckIssues(MinLength(1, DateOfBirthRequired), r.dateOfBirth);
    case Phone => RequiredMinIssues(9, PhoneRequired, PhoneShort, r.phone);
    case Nif => RequiredMinIssues(9, NifRequired, NifShort, r.nif);
    case Address => RequiredMinIssues(10, AddressRequired, AddressShort, r.address);
    case TlrCode => SingleCheckIssues(Length(3, TlrNotThree), r.tlrCode);
  }

  /** A field reports nothing exactly when it meets its condition, and its
      first message is the one `Step2FieldMessage` names. */
  lemma Step2IssuesMeaning(r: Step2Data, isEmail: EmailRule)
    ensures forall f :: Step2Issues(r, f, isEmail) == [] <==> Step2FieldOk(r, f, isEmail)
    ensures forall f :: Step2Issues(r, f, isEmail) != [] ==> Step2Issues(r, f, isEmail)[0] == Step2FieldMessage(r, f)
  {
    forall f ensures Step2Issues(r, f, isEmail) == [] <==> Step2FieldOk(r, f, isEmail)
      ensures Step2Issues(r, f, isEmail) != [] ==> Step2Issues(r, f, isEmail)[0] == Step2FieldMessage(r, f)
    {
      Step2IssuesAt(r, f, isEmail);
    }
  }

  /** Exactly the records step 2 accepts. */
  lemma Step2Accepts(r: Step2Data, isEmail: EmailRule)
    ensures Step2Valid(r, isEmail) <==>
      && isEmail(r.email)
      && |r.firstName| >= 2 && |r.lastName| >= 2
      && |r.dateOfBirth| >= 1
      && |r.phone| >= 9 && |r.nif| >= 9
      && |r.address| >= 10
      && |r.tlrCode| == 3
  {
    if !Step2Valid(r, isEmail) {
      var f :| f in Step2Errors(r, isEmail);
      assert !Step2FieldOk(r, f, isEmail);
    } else {
      var e := Step2Errors(r, isEmail);
      assert Email !in e && FirstName !in e && LastName !in e && DateOfBirth !in e;
      assert Phone !in e && Nif !in e && Address !in e && TlrCode !in e;
    }
  }

  /** Step 2 checks only the TLR code's length, but whatever step 1 accepted
      for the e-mail and the TLR code is accepted again in step 2. */
  lemma CarriedFieldsStayValid(r: Step2Data, isEmail: EmailRule)
    requires Step1Valid(Step1Data(r.email, r.tlrCode), isEmail)
    ensures Email !in Step2Errors(r, isEmail) && TlrCode !in Step2Errors(r, isEmail)
  {
    Step1Accepts(Step1Data(r.email, r.tlrCode), isEmail);
  }

  /** "abc" is a TLR code that step 2 lets through and step 1 does not. */
  lemma Step2TlrCodeIsWeaker(isEmail: EmailRule)
    ensures TlrCode !in Step2Errors(Step2Data("", "", "", "", "", "", "", "abc"), isEmail)
    ensures Step1Errors(Step1Data("", "abc"), isEmail)[TlrCode] == TlrNotNumeric
  {
    var t := "abc";
    assert !IsAsciiDigit(t[0]);
  }

  // ---------------------------------------------------------------- parsing

  /** What the resolver hands on: the record itself, or the field messages. */
  datatype Parsed<T> = Accepted(value: T) | Rejected(errors: FieldErrors)

  /** The step-1 resolver accepts exactly a non-empty, e-mail-shaped e-mail
      with a three-digit TLR code and then hands on the record unchanged;
      otherwise the form receives the field messages, never none. */
  function ParseStep1(r: Step1Data, isEmail: EmailRule): (p: Parsed<Step1Data>)
    ensures p.Accepted? <==> r.email != "" && isEmail(r.email) && |r.tlrCode| == 3 && AllAsciiDigits(r.tlrCode)
    ensures p.Accepted? ==> p.value == r
    ensures p.Rejected? ==> p.errors == Step1Errors(r, isEmail) && p.errors != map[]
  {
    Step1Accepts(r, isEmail);
    var e := Step1Errors(r, isEmail);
    if e == map[] then Accepted(r) else Rejected(e)
  }

  /** The step-2 resolver accepts exactly the records whose fields all meet
      their conditions and then hands on the record unchanged; otherwise the
      form receives the field messages, never none. */
  function ParseStep2(r: Step2Data, isEmail: EmailRule): (p: Parsed<Step2Data>)
    ensures p.Accepted? <==>
      && isEmail(r.email)
      && |r.firstName| >= 2 && |r.lastName| >= 2
      && |r.dateOfBirth| >= 1
      && |r.phone| >= 9 && |r.nif| >= 9
      && |r.address| >= 10
      && |r.tlrCode| == 3
    ensures p.Accepted? ==> p.value == r
    ensures p.Rejected? ==> p.errors == Step2Errors(r, isEmail) && p.errors != map[]
  {
    Step2Accepts(r, isEmail);
    var e := Step2Errors(r, isEmail);
    if e == map[] then Accepted(r) else Rejected(e)
  }

  /** Validation leaves an accepted record as it was, so validating it again
      accepts it again with no errors. */
  lemma RevalidationIsStable(r1: Step1Data, r2: Step2Data, isEmail: EmailRule)
    ensures ParseStep1(r1, isEmail).Accepted? ==>
      ParseStep1(ParseStep1(r1, isEmail).value, isEmail) == ParseStep1(r1, isEmail)
    ensures ParseStep2(r2, isEmail).Accepted? ==>
      ParseStep2(ParseStep2(r2, isEmail).value, isEmail) == ParseStep2(r2, isEmail)
  {
  }
}
