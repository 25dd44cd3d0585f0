/** The login form: the validation schema's email and password rules and the
    empty-field guard of the submit handler. */
module LoginForm {
  import opened Wrappers

  const MinPasswordLength: nat := 8
  const MaxPasswordLength: nat := 100
  const InvalidDataMessage: string := "No data or invalid data"

  /** The regular-expression character classes the schema tests for. */
  datatype CharClass =
    | UpperAZ   // `[A-Z]`
    | NotAlnum  // `[^A-Za-z0-9]`
    | Dot       // `[.]`

  predicate IsAsciiAlnum(c: char)
  {
    ('A' <= c <= 'Z') || ('a' <= c <= 'z') || ('0' <= c <= '9')
  }

  /** Membership of one character in a character class. */
  predicate InClass(c: char, cls: CharClass)
  {
    match cls
    case UpperAZ => 'A' <= c <= 'Z'
    case NotAlnum => !IsAsciiAlnum(c)
    case Dot => c == '.'
  }

  /** `.matches(/[...]/)`: some character of `s` is in the class. */
  predicate Matches(s: string, cls: CharClass)
  {
    exists i :: 0 <= i < |s| && InClass(s[i], cls)
  }

  /** The rules a password can break, one per schema test. */
  datatype PasswordRule = PasswordRequired | PasswordTooShort | PasswordTooLong | NoUppercase | NoSpecial

  /** The rules an email can break (the library's own email-format test is
      not part of this model). */
  datatype EmailRule = EmailRequired | NoDot

  /** A password the schema accepts: every rule holds. */
  predicate ValidPassword(p: string)
  {
    && p != ""
    && MinPasswordLength <= |p| <= MaxPasswordLength
    && Matches(p, UpperAZ)
    && Matches(p, NotAlnum)
  }

  /** An email the schema's explicit rules accept. */
  predicate ValidEmail(e: string)
  {
    e != "" && Matches(e, Dot)
  }

  /** The password rules that fail, each reported independently; a password
      is accepted exactly when none fails. */
  function PasswordViolations(p: string): (v: set<PasswordRule>)
    ensures v == {} <==> ValidPassword(p)
    ensures PasswordRequired in v <==> |p| == 0
    ensures PasswordTooShort in v <==> |p| < MinPasswordLength
    ensures PasswordTooLong in v <==> |p| > MaxPasswordLength
    ensures NoUppercase in v <==> forall i :: 0 <= i < |p| ==> !('A' <= p[i] <= 'Z')
    ensures NoSpecial in v <==> forall i :: 0 <= i < |p| ==> IsAsciiAlnum(p[i])
  {
    (if p == "" then {PasswordRequired} else {})
    + (if |p| < MinPasswordLength then {PasswordTooShort} else {})
    + (if |p| > MaxPasswordLength then {PasswordTooLong} else {})
    + (if !Matches(p, UpperAZ) then {NoUppercase} else {})
    + (if !Matches(p, NotAlnum) then {NoSpecial} else {})
  }

  /** The email rules that fail; an email passes exactly when none fails. */
  function EmailViolations(e: string): (v: set<EmailRule>)
    ensures v == {} <==> ValidEmail(e)
    ensures EmailRequired in v <==> |e| == 0
    ensures NoDot in v <==> forall i :: 0 <= i < |e| ==> e[i] != '.'
  {
    (if e == "" then {EmailRequired} else {})
    + (if !Matches(e, Dot) then {NoDot} else {})
  }

  /** The password rules the form's validation fails. The form hands an empty field to
      the schema as an absent value, and the length and pattern tests accept
      an absent value, so an empty password fails only the required rule. */
  function FormPasswordErrors(p: string): (v: set<PasswordRule>)
    ensures v == {} <==> ValidPassword(p)
    ensures p == "" ==> v == {PasswordRequired}
    ensures p != "" ==> v == PasswordViolations(p)
  {
    if p == "" then {PasswordRequired} else PasswordViolations(p)
  }

  /** The email rules the form's validation fails; an empty email fails only
      the required rule. */
  function FormEmailErrors(e: string): (v: set<EmailRule>)
    ensures v == {} <==> ValidEmail(e)
    ensures e == "" ==> v == {EmailRequired}
    ensures e != "" ==> v == EmailViolations(e)
  {
    if e == "" then {EmailRequired} else EmailViolations(e)
  }

  /** The first position matching a one-character class, or none; the
      schema's pattern test passes exactly when there is one. */
  method FirstMatch(s: string, cls: CharClass) returns (idx: Option<nat>)
    ensures idx.Some? ==> idx.value < |s| && InClass(s[idx.value], cls)
    ensures idx.Some? ==> forall j :: 0 <= j < idx.value ==> !InClass(s[j], cls)
    ensures idx.None? <==> !Matches(s, cls)
  {
    var i := 0;
    while i < |s|
      invariant 0 <= i <= |s|
      invariant forall j :: 0 <= j < i ==> !InClass(s[j], cls)
    {
      if InClass(s[i], cls) {
        return Some(i);
      }
      i := i + 1;
    }
    return None;
  }

  /** Runs the password tests in the schema's order; accepts exactly the
      valid passwords. */
  method ValidatePassword(p: string) returns (ok: bool)
    ensures ok <==> ValidPassword(p)
    ensures ok ==> PasswordViolations(p) == {}
  {
    if |p| < MinPasswordLength || |p| > MaxPasswordLength {
      return false;
    }
    var upper := FirstMatch(p, UpperAZ);
    var special := FirstMatch(p, NotAlnum);
    ok := upper.Some? && special.Some?;
  }

  /** Runs the email tests; accepts exactly the emails the explicit rules allow. */
  method ValidateEmail(e: string) returns (ok: bool)
    ensures ok <==> ValidEmail(e)
  {
    var dot := FirstMatch(e, Dot);
    ok := e != "" && dot.Some?;
  }

  /** `onSubmit`: throws when the email or the password is empty. */
  function OnSubmit(email: string, password: string): (r: Result<(), string>)
    ensures r.Failure? <==> email == "" || password == ""
    ensures r.Failure? ==> r.error == InvalidDataMessage
  {
    if email == "" || password == "" then Failure(InvalidDataMessage) else Success(())
  }

  /** A form whose validation fails no rule never reaches the submit handler's error. */
  lemma ValidFormSubmits(email: string, password: string)
    requires FormEmailErrors(email) == {} && FormPasswordErrors(password) == {}
    ensures OnSubmit(email, password).Success?
  {
  }

  /** The schema applied directly to an empty password breaks every rule but
      the maximum length; the form's validation fails only the required rule
      for it, and only the required rule for an empty email. */
  lemma EmptyPasswordRejected()
    ensures PasswordViolations("") == {PasswordRequired, PasswordTooShort, NoUppercase, NoSpecial}
    ensures FormPasswordErrors("") == {PasswordRequired}
    ensures FormEmailErrors("") == {EmailRequired}
  {
  }

  /** The uppercase rule and the special-character rule are met by two
      different characters, so a valid password has both kinds. */
  lemma ValidPasswordHasTwoKinds(p: string)
    requires ValidPassword(p)
    ensures exists i, j :: 0 <= i < |p| && 0 <= j < |p| && i != j
                        && 'A' <= p[i] <= 'Z' && !IsAsciiAlnum(p[j])
  {
    var i :| 0 <= i < |p| && InClass(p[i], UpperAZ);
    var j :| 0 <= j < |p| && InClass(p[j], NotAlnum);
    assert i != j;
  }

  /** Sample passwords: one accepted, and one for each failing rule. */
  lemma PasswordExamples()
    ensures ValidPassword("Passw0rd!")
    ensures PasswordViolations("password!") == {NoUppercase}
    ensures PasswordViolations("Password1") == {NoSpecial}
    ensures PasswordViolations("Pa!") == {PasswordTooShort}
  {
    assert InClass("Passw0rd!"[0], UpperAZ);
    assert InClass("Passw0rd!"[8], NotAlnum);
    assert InClass("password!"[8], NotAlnum);
    assert InClass("Password1"[0], UpperAZ);
    assert InClass("Pa!"[0], UpperAZ);
    assert InClass("Pa!"[2], NotAlnum);
  }
}
