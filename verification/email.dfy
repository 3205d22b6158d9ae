/** The e-mail field of the quote summary: the format check, the error
    message it drives and the gating of the two submit buttons. */
module Email {

  /** JavaScript's `\s`: the ECMAScript WhiteSpace and LineTerminator code
      points (tab, line feed, vertical tab, form feed, carriage return,
      space, no-break space, the Unicode space separators, line and
      paragraph separators, byte order mark). */
  predicate IsSpace(ch: char) {
    ch as int in SpaceCodePoints
  }

  const SpaceCodePoints: set<int> := {
    0x09, 0x0A, 0x0B, 0x0C, 0x0D, 0x20, 0xA0, 0x1680,
    0x2000, 0x2001, 0x2002, 0x2003, 0x2004, 0x2005, 0x2006, 0x2007, 0x2008, 0x2009, 0x200A,
    0x2028, 0x2029, 0x202F, 0x205F, 0x3000, 0xFEFF }

  /** The character class `[^\s@]`. */
  predicate Plain(ch: char) {
    !IsSpace(ch) && ch != '@'
  }

  predicate AllPlain(t: string) {
    forall k :: 0 <= k < |t| ==> Plain(t[k])
  }

  /** `/^[^\s@]+@[^\s@]+\.[^\s@]+$/.test(s)` read literally: three non-empty
      runs of `[^\s@]`, the first two separated by `@`, the last two by `.`. */
  ghost predicate MatchesEmailPattern(s: string) {
    exists i, j ::
      && 0 < i && i + 1 < j && j + 1 < |s|
      && s[i] == '@' && s[j] == '.'
      && AllPlain(s[..i]) && AllPlain(s[i+1..j]) && AllPlain(s[j+1..])
  }

  /** Position of the first `@`, or `|s|` when there is none. */
  function IndexOfAt(s: string): (k: nat)
    ensures k <= |s|
    ensures forall j :: 0 <= j < k ==> s[j] != '@'
    ensures k < |s| ==> s[k] == '@'
  {
    if |s| == 0 then 0
    else if s[0] == '@' then 0
    else 1 + IndexOfAt(s[1..])
  }

  /** The part after the `@`: no `@` and no white space, and a `.` that is
      neither its first nor its last character. */
  predicate IsDomain(d: string) {
    AllPlain(d) && exists p :: 0 < p < |d| - 1 && d[p] == '.'
  }

  /** `validateEmail`: a non-empty local part free of `@` and white space,
      one `@`, and a domain as above. */
  predicate ValidateEmail(s: string) {
    var k := IndexOfAt(s);
    0 < k < |s| && AllPlain(s[..k]) && IsDomain(s[k+1..])
  }

  /** Every string the validator accepts matches the regular expression. */
  lemma ValidatedMatchesPattern(s: string)
    requires ValidateEmail(s)
    ensures MatchesEmailPattern(s)
  {
    var k := IndexOfAt(s);
    var d := s[k+1..];
    var p :| 0 < p < |d| - 1 && d[p] == '.';
    var j := k + 1 + p;
    assert s[k+1..j] == d[..p];
    assert s[j+1..] == d[p+1..];
    AllPlainSlice(d, 0, p);
    AllPlainSlice(d, p + 1, |d|);
    assert s[j] == '.';
  }

  /** Every string the regular expression matches is accepted. */
  lemma PatternIsValidated(s: string)
    requires MatchesEmailPattern(s)
    ensures ValidateEmail(s)
  {
    var i, j :| && 0 < i && i + 1 < j && j + 1 < |s|
                && s[i] == '@' && s[j] == '.'
                && AllPlain(s[..i]) && AllPlain(s[i+1..j]) && AllPlain(s[j+1..]);
    SplitIsValidated(s, i, j);
  }

  lemma SplitIsValidated(s: string, i: int, j: int)
    requires 0 < i && i + 1 < j && j + 1 < |s|
    requires s[i] == '@' && s[j] == '.'
    requires AllPlain(s[..i]) && AllPlain(s[i+1..j]) && AllPlain(s[j+1..])
    ensures ValidateEmail(s)
  {
  }

  lemma AllPlainSlice(t: string, a: int, b: int)
    requires AllPlain(t) && 0 <= a <= b <= |t|
    ensures AllPlain(t[a..b])
  {
  }

  /** The scanning validator accepts exactly the strings the regular
      expression matches. */
  lemma ValidateEmailIsPattern(s: string)
    ensures ValidateEmail(s) <==> MatchesEmailPattern(s)
  {
    if ValidateEmail(s) {
      ValidatedMatchesPattern(s);
    }
    if MatchesEmailPattern(s) {
      PatternIsValidated(s);
    }
  }

  const InvalidEmailMessage: string := "Por favor ingresa un correo electrónico válido"

  /** The e-mail input and the message shown under it. */
  datatype EmailField = EmailField(email: string, error: string)

  /** `handleEmailChange`: store the value; show the message only for a
      non-empty value the validator rejects. */
  function HandleEmailChange(value: string): (f: EmailField)
    ensures f.email == value
    ensures value == "" ==> f.error == ""
    ensures f.error == "" <==> value == "" || ValidateEmail(value)
    ensures f.error != "" ==> f.error == InvalidEmailMessage
  {
    if value == "" then EmailField(value, "")
    else if !ValidateEmail(value) then EmailField(value, InvalidEmailMessage)
    else EmailField(value, "")
  }

  /** The buttons' `disabled={!email || !!emailError}`, negated. */
  predicate SubmitEnabled(f: EmailField) {
    !(f.email == "" || f.error != "")
  }

  /** After any edit of the field, the buttons are enabled exactly when the
      value is non-empty and matches the e-mail pattern. */
  lemma SubmitGate(value: string)
    ensures SubmitEnabled(HandleEmailChange(value)) <==> value != "" && MatchesEmailPattern(value)
  {
    ValidateEmailIsPattern(value);
  }
}
