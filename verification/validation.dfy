/** Validation of the login and registration forms. */
module Validation {
  import opened Outcomes

  /** The characters JavaScript counts as white space or line terminators: what
      `String.prototype.trim` strips and what `\s` matches in a regular expression. */
  predicate IsWhitespace(ch: char) {
    || ch == '\t' || ch == '\n' || ch == '\U{000B}' || ch == '\U{000C}' || ch == '\r'
    || ch == ' ' || ch == '\U{00A0}' || ch == '\U{1680}'
    || ('\U{2000}' <= ch <= '\U{200A}')
    || ch == '\U{2028}' || ch == '\U{2029}' || ch == '\U{202F}' || ch == '\U{205F}'
    || ch == '\U{3000}' || ch == '\U{FEFF}'
  }

  predicate AllWhitespace(s: string) {
    forall k | 0 <= k < |s| :: IsWhitespace(s[k])
  }

  /** `s` without its leading white space. */
  function TrimStart(s: string): (r: string)
    ensures |r| <= |s| && r == s[|s| - |r|..]
    ensures AllWhitespace(s[..|s| - |r|])
    ensures |r| > 0 ==> !IsWhitespace(r[0])
  {
    if |s| > 0 && IsWhitespace(s[0]) then TrimStart(s[1..]) else s
  }

  /** `s` without its trailing white space. */
  function TrimEnd(s: string): (r: string)
    ensures |r| <= |s| && r == s[..|r|]
    ensures AllWhitespace(s[|r|..])
    ensures |r| > 0 ==> !IsWhitespace(r[|r| - 1])
  {
    if |s| > 0 && IsWhitespace(s[|s| - 1]) then TrimEnd(s[..|s| - 1]) else s
  }

  /** `r` is the part of `s` between the white space `s` starts with and the
      white space it ends with, beginning at position `i`. */
  ghost predicate TrimmedAt(s: string, r: string, i: int) {
    && 0 <= i && i + |r| <= |s|
    && s[i..i + |r|] == r
    && AllWhitespace(s[..i])
    && AllWhitespace(s[i + |r|..])
  }

  /** `String.prototype.trim`: white space removed from both ends. */
  function Trim(s: string): (r: string)
    ensures exists i :: TrimmedAt(s, r, i)
    ensures |r| > 0 ==> !IsWhitespace(r[0]) && !IsWhitespace(r[|r| - 1])
    ensures |r| == 0 <==> AllWhitespace(s)
  {
    TrimBothEnds(s);
    TrimEmpty(s);
    TrimEnd(TrimStart(s))
  }

  /** Stripping the front and then the back leaves the middle of `s`, framed by
      nothing but white space. */
  lemma {:induction false} TrimBothEnds(s: string)
    ensures TrimmedAt(s, TrimEnd(TrimStart(s)), |s| - |TrimStart(s)|)
  {
  }

  /** Trimming leaves nothing exactly when `s` is all white space. */
  lemma {:induction false} TrimEmpty(s: string)
    ensures |TrimEnd(TrimStart(s))| == 0 <==> AllWhitespace(s)
  {
  }

  /** A run of the email pattern's `[^\s@]+`: non-empty, with no white space and no '@'. */
  predicate IsAtom(x: string) {
    |x| > 0 && forall k | 0 <= k < |x| :: !IsWhitespace(x[k]) && x[k] != '@'
  }

  /** The strings the pattern `^[^\s@]+@[^\s@]+\.[^\s@]+$` accepts. */
  ghost predicate MatchesEmailPattern(s: string) {
    exists a, b, c | IsAtom(a) && IsAtom(b) && IsAtom(c) :: s == a + "@" + b + "." + c
  }

  /** The first position of `ch` in `s`. */
  function IndexOf(s: string, ch: char): (r: Option<nat>)
    ensures r.Some? ==> r.value < |s| && s[r.value] == ch
    ensures r.Some? ==> forall k | 0 <= k < r.value :: s[k] != ch
    ensures r.None? ==> forall k | 0 <= k < |s| :: s[k] != ch
  {
    if |s| == 0 then None
    else if s[0] == ch then Some(0)
    else match IndexOf(s[1..], ch)
      case None => None
      case Some(i) => Some(i + 1)
  }

  /** The email check, written out by hand: a non-empty local part before the
      only '@', and a domain after it that has a '.' neither first nor last,
      with no white space anywhere. */
  predicate ValidateEmail(s: string) {
    match IndexOf(s, '@')
    case None => false
    case Some(i) =>
      var local, domain := s[..i], s[i + 1..];
      IsAtom(local) && IsAtom(domain) && |domain| >= 3 && '.' in domain[1..|domain| - 1]
  }

  lemma {:induction false} AtomConcat(b: string, c: string)
    requires IsAtom(b) && IsAtom(c)
    ensures IsAtom(b + "." + c)
  {
  }

  /** The hand-written check accepts exactly the strings the pattern matches. */
  lemma {:induction false} ValidateEmailMatchesPattern(s: string)
    ensures ValidateEmail(s) <==> MatchesEmailPattern(s)
  {
    if ValidateEmail(s) {
      AcceptedMatches(s);
    }
    if MatchesEmailPattern(s) {
      var a, b, c :| IsAtom(a) && IsAtom(b) && IsAtom(c) && s == a + "@" + b + "." + c;
      MatchedAccepted(a, b, c);
    }
  }

  lemma {:induction false} AcceptedMatches(s: string)
    requires ValidateEmail(s)
    ensures MatchesEmailPattern(s)
  {
    var i := IndexOf(s, '@').value;
    var local, domain := s[..i], s[i + 1..];
    var b, c := DomainSplit(domain);
    assert s == local + "@" + domain;
    assert s == local + "@" + b + "." + c;
  }

  /** A domain accepted by the email check splits at a dot into two runs. */
  lemma {:induction false} DomainSplit(domain: string) returns (b: string, c: string)
    requires IsAtom(domain) && |domain| >= 3 && '.' in domain[1..|domain| - 1]
    ensures IsAtom(b) && IsAtom(c) && domain == b + "." + c
  {
    var j :| 1 <= j < |domain| - 1 && domain[j] == '.';
    b, c := domain[..j], domain[j + 1..];
    assert domain == b + [domain[j]] + c;
  }

  lemma {:induction false} MatchedAccepted(a: string, b: string, c: string)
    requires IsAtom(a) && IsAtom(b) && IsAtom(c)
    ensures ValidateEmail(a + "@" + b + "." + c)
  {
    var s := a + "@" + b + "." + c;
    var d := b + "." + c;
    assert s == a + "@" + d;
    assert s[|a|] == '@';
    assert forall k | 0 <= k < |a| :: s[k] == a[k];
    assert IndexOf(s, '@') == Some(|a|);
    assert s[..|a|] == a && s[|a| + 1..] == d;
    AtomConcat(b, c);
    assert d[|b|] == '.';
    assert d[1..|d| - 1][|b| - 1] == '.';
  }

  /** The password rule: at least six characters. */
  predicate ValidatePassword(password: string) {
    |password| >= 6
  }

  /** The fields a form can report an error on. */
  datatype Field = FullName | Email | Username | Password | ConfirmPassword

  /** The values typed into a form. A field the form does not have (the login
      form has only a username and a password) is the empty string: the script
      treats a missing field and an empty one alike. */
  datatype FormData = FormData(
    fullName: string, email: string, username: string, password: string, confirmPassword: string)

  function Message(f: Field): string {
    match f
    case FullName => "Full name must be at least 2 characters long"
    case Email => "Please enter a valid email address"
    case Username => "Username must be at least 3 characters long"
    case Password => "Password must be at least 6 characters long"
    case ConfirmPassword => "Passwords do not match"
  }

  /** The error object: one message per failing field. */
  function ErrorMap(failing: set<Field>): (errors: map<Field, string>)
    ensures forall field :: field in errors <==> field in failing
    ensures forall field | field in errors :: errors[field] == Message(field)
  {
    map field | field in failing :: Message(field)
  }

  const AllFields: set<Field> := {FullName, Email, Username, Password, ConfirmPassword}

  /** The rule each field is checked against; an empty field is never checked. */
  predicate Fails(f: FormData, field: Field) {
    match field
    case FullName => f.fullName != "" && |Trim(f.fullName)| < 2
    case Email => f.email != "" && !ValidateEmail(f.email)
    case Username => f.username != "" && |Trim(f.username)| < 3
    case Password => f.password != "" && !ValidatePassword(f.password)
    case ConfirmPassword => f.confirmPassword != "" && f.password != f.confirmPassword
  }

  /** The fields whose rule fails. */
  function FailingFields(f: FormData): (failing: set<Field>)
    ensures forall field :: field in failing <==> Fails(f, field)
  {
    set field | field in AllFields && Fails(f, field)
  }

  /** `validateForm`: the error object of a form, with one message for each
      non-empty field that breaks its rule. */
  function ValidateForm(f: FormData): (errors: map<Field, string>)
    ensures FullName in errors <==> f.fullName != "" && |Trim(f.fullName)| < 2
    ensures Email in errors <==> f.email != "" && !ValidateEmail(f.email)
    ensures Username in errors <==> f.username != "" && |Trim(f.username)| < 3
    ensures Password in errors <==> f.password != "" && |f.password| < 6
    ensures ConfirmPassword in errors <==> f.confirmPassword != "" && f.confirmPassword != f.password
    ensures forall field | field in errors :: errors[field] == Message(field)
  {
    ErrorMap(FailingFields(f))
  }

  /** A form is accepted (no errors) exactly when every filled-in field passes its rule. */
  lemma {:induction false} FormAcceptedIff(f: FormData)
    ensures |ValidateForm(f)| == 0 <==>
      && (f.fullName == "" || |Trim(f.fullName)| >= 2)
      && (f.email == "" || MatchesEmailPattern(f.email))
      && (f.username == "" || |Trim(f.username)| >= 3)
      && (f.password == "" || |f.password| >= 6)
      && (f.confirmPassword == "" || f.confirmPassword == f.password)
  {
    ValidateEmailMatchesPattern(f.email);
    var errors := ValidateForm(f);
    if |errors| == 0 {
      assert errors.Keys == {};
    } else {
      var field :| field in errors;
    }
  }

  /** The login form has only a username and a password, so only those two
      fields can be reported. */
  lemma {:induction false} LoginFormFields(username: string, password: string)
    ensures forall field | field in ValidateForm(FormData("", "", username, password, "")) ::
      field == Username || field == Password
  {
  }

  /** The login form is accepted exactly when the username and the password are
      each empty or pass their rule. */
  lemma {:induction false} LoginFormAccepted(username: string, password: string)
    ensures |ValidateForm(FormData("", "", username, password, ""))| == 0 <==>
      (username == "" || |Trim(username)| >= 3) && (password == "" || |password| >= 6)
  {
    FormAcceptedIff(FormData("", "", username, password, ""));
  }

  /** A form left entirely empty produces no errors. */
  lemma EmptyFormAccepted()
    ensures ValidateForm(FormData("", "", "", "", "")) == map[]
  {
  }

  /** A name made only of spaces is rejected, although it is not empty. */
  lemma BlankNameRejected()
    ensures FullName in ValidateForm(FormData("   ", "", "", "", ""))
  {
  }

  /** An ordinary address passes the email check. */
  lemma EmailAccepted()
    ensures ValidateEmail("jo@mail.com")
  {
    MatchedAccepted("jo", "mail", "com");
    assert "jo" + "@" + "mail" + "." + "com" == "jo@mail.com";
  }

  /** A domain without a dot fails it. */
  lemma EmailWithoutDotRejected()
    ensures !ValidateEmail("jo@mail")
  {
  }
}
