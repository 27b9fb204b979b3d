/**
 * The client's field validators and the two form validators built from
 * them (utils/validation.ts). Each validator returns the first failing
 * check's message, or `None` for a valid value.
 */
module Validation {
  import opened Wrappers
  import opened Text

  const PASSWORD_MIN_LENGTH: nat := 6
  const PASSWORD_MAX_LENGTH: nat := 40
  const NAME_MIN_LENGTH: nat := 2
  const NAME_MAX_LENGTH: nat := 50
  const EMAIL_MAX_LENGTH: nat := 100
  const CODE_LENGTH: nat := 6

  const EMAIL_REQUIRED: string := "Email is required"
  const EMAIL_INVALID: string := "Please enter a valid email address"
  const EMAIL_TOO_LONG: string := "Email must be less than 100 characters"
  const PASSWORD_REQUIRED: string := "Password is required"
  const PASSWORD_TOO_SHORT: string := "Password must be at least 6 characters"
  const PASSWORD_TOO_LONG: string := "Password must be less than 40 characters"
  const CODE_REQUIRED: string := "Verification code is required"
  const CODE_WRONG_LENGTH: string := "Verification code must be 6 digits"
  const CODE_NOT_NUMERIC: string := "Verification code must contain only numbers"

  // ---------------------------------------------------------------------
  // The e-mail pattern /^[^\s@]+@[^\s@]+\.[^\s@]+$/
  // ---------------------------------------------------------------------

  /** A character of the class `[^\s@]`. */
  predicate Plain(c: char) {
    !IsJsSpace(c) && c != '@'
  }

  predicate PlainRun(s: string) {
    |s| > 0 && forall k :: 0 <= k < |s| ==> Plain(s[k])
  }

  /** The language of the pattern: `a@b.c` with three non-empty runs of `[^\s@]`. */
  ghost predicate MatchesEmailPattern(s: string) {
    exists i, j :: 0 < i < j < |s| - 1 && s[i] == '@' && s[j] == '.'
      && PlainRun(s[..i]) && PlainRun(s[i + 1..j]) && PlainRun(s[j + 1..])
  }

  /** Index of the first `@` in `s`, or `|s|`. */
  function IndexOfAt(s: string): (i: nat)
    ensures i <= |s|
    ensures forall k :: 0 <= k < i ==> s[k] != '@'
    ensures i < |s| ==> s[i] == '@'
  {
    if s == [] || s[0] == '@' then 0 else 1 + IndexOfAt(s[1..])
  }

  /** `EMAIL_REGEX.test(s)`, decided by one scan. */
  predicate EmailPatternTest(s: string) {
    var i := IndexOfAt(s);
    && 0 < i < |s|
    && (forall k :: 0 <= k < |s| ==> !IsJsSpace(s[k]))
    && (forall k :: i < k < |s| ==> s[k] != '@')
    && (exists j :: i + 1 < j < |s| - 1 && s[j] == '.')
  }

  lemma PlainSlice(s: string, a: int, b: int)
    requires 0 <= a < b <= |s|
    ensures PlainRun(s[a..b]) <==> forall k :: a <= k < b ==> Plain(s[k])
  {
    if forall k :: a <= k < b ==> Plain(s[k]) {
      forall k | 0 <= k < b - a ensures Plain(s[a..b][k]) {
        assert s[a..b][k] == s[a + k];
      }
    }
    if PlainRun(s[a..b]) {
      forall k | a <= k < b ensures Plain(s[k]) {
        assert s[k] == s[a..b][k - a];
      }
    }
  }

  lemma {:induction false} EmailTestSound(s: string)
    requires EmailPatternTest(s)
    ensures MatchesEmailPattern(s)
  {
    var i := IndexOfAt(s);
    var j :| i + 1 < j < |s| - 1 && s[j] == '.';
    assert s[..i] == s[0..i] && s[j + 1..] == s[j + 1..|s|];
    PlainSlice(s, 0, i);
    PlainSlice(s, i + 1, j);
    PlainSlice(s, j + 1, |s|);
    assert 0 < i < j < |s| - 1 && s[i] == '@' && s[j] == '.'
      && PlainRun(s[..i]) && PlainRun(s[i + 1..j]) && PlainRun(s[j + 1..]);
  }

  lemma {:induction false} EmailTestComplete(s: string)
    requires MatchesEmailPattern(s)
    ensures EmailPatternTest(s)
  {
    var i, j :| 0 < i < j < |s| - 1 && s[i] == '@' && s[j] == '.'
      && PlainRun(s[..i]) && PlainRun(s[i + 1..j]) && PlainRun(s[j + 1..]);
    assert s[..i] == s[0..i] && s[j + 1..] == s[j + 1..|s|];
    PlainSlice(s, 0, i);
    PlainSlice(s, i + 1, j);
    PlainSlice(s, j + 1, |s|);
    assert forall k :: 0 <= k < i ==> s[k] != '@';
    assert forall k :: i < k < |s| ==> s[k] != '@';
    var at := IndexOfAt(s);
    assert at <= i;
    assert at == i;
    assert forall k :: 0 <= k < |s| ==> !IsJsSpace(s[k]);
    assert i + 1 < j < |s| - 1 && s[j] == '.';
  }

  /** The scan accepts exactly the strings in the pattern's language. */
  lemma EmailPatternTestCorrect(s: string)
    ensures EmailPatternTest(s) <==> MatchesEmailPattern(s)
  {
    if EmailPatternTest(s) { EmailTestSound(s); }
    if MatchesEmailPattern(s) { EmailTestComplete(s); }
  }

  // ---------------------------------------------------------------------
  // Field validators
  // ---------------------------------------------------------------------

  /** `validateEmail`. */
  function ValidateEmail(email: string): (r: Option<string>)
    ensures r == Some(EMAIL_REQUIRED) <==> JsTrim(email) == ""
    ensures r == None <==> JsTrim(email) != "" && MatchesEmailPattern(email) && |email| <= EMAIL_MAX_LENGTH
    ensures r == Some(EMAIL_INVALID) <==> JsTrim(email) != "" && !MatchesEmailPattern(email)
    ensures r == Some(EMAIL_TOO_LONG) <==> JsTrim(email) != "" && MatchesEmailPattern(email) && |email| > EMAIL_MAX_LENGTH
  {
    EmailPatternTestCorrect(email);
    if JsTrim(email) == "" then Some(EMAIL_REQUIRED)
    else if !EmailPatternTest(email) then Some(EMAIL_INVALID)
    else if |email| > EMAIL_MAX_LENGTH then Some(EMAIL_TOO_LONG)
    else None
  }

  /** An address in the pattern's language is never blank, so the "required" check can only fire on input the pattern rejects too. */
  lemma PatternImpliesNonBlank(email: string)
    requires MatchesEmailPattern(email)
    ensures JsTrim(email) != ""
  {
    var i, j :| 0 < i < j < |email| - 1 && email[i] == '@' && email[j] == '.'
      && PlainRun(email[..i]) && PlainRun(email[i + 1..j]) && PlainRun(email[j + 1..]);
    assert !IsJsSpace(email[i]);
  }

  /** `validatePassword`: the length alone decides; the password is not trimmed. */
  function ValidatePassword(password: string): (r: Option<string>)
    ensures r == None <==> PASSWORD_MIN_LENGTH <= |password| <= PASSWORD_MAX_LENGTH
    ensures r == Some(PASSWORD_REQUIRED) <==> password == ""
    ensures r == Some(PASSWORD_TOO_SHORT) <==> 0 < |password| < PASSWORD_MIN_LENGTH
    ensures r == Some(PASSWORD_TOO_LONG) <==> |password| > PASSWORD_MAX_LENGTH
  {
    if password == "" then Some(PASSWORD_REQUIRED)
    else if |password| < PASSWORD_MIN_LENGTH then Some(PASSWORD_TOO_SHORT)
    else if |password| > PASSWORD_MAX_LENGTH then Some(PASSWORD_TOO_LONG)
    else None
  }

  function NameRequired(fieldName: string): string {
    fieldName + " is required"
  }

  function NameTooShort(fieldName: string): string {
    fieldName + " must be at least 2 characters"
  }

  function NameTooLong(fieldName: string): string {
    fieldName + " must be less than 50 characters"
  }

  /** `validateName`: the minimum applies to the trimmed name, the maximum to the name as typed. */
  function ValidateName(name: string, fieldName: string): (r: Option<string>)
    ensures r == None <==> |JsTrim(name)| >= NAME_MIN_LENGTH && |name| <= NAME_MAX_LENGTH
    ensures r.Some? ==> fieldName <= r.value
    ensures r == Some(NameRequired(fieldName)) <==> JsTrim(name) == ""
    ensures r == Some(NameTooShort(fieldName)) <==> |JsTrim(name)| == 1
    ensures r == Some(NameTooLong(fieldName)) <==> |JsTrim(name)| >= NAME_MIN_LENGTH && |name| > NAME_MAX_LENGTH
  {
    var trimmed := JsTrim(name);
    if trimmed == "" then Some(NameRequired(fieldName))
    else if |trimmed| < NAME_MIN_LENGTH then Some(NameTooShort(fieldName))
    else if |name| > NAME_MAX_LENGTH then Some(NameTooLong(fieldName))
    else None
  }

  /** `validateVerificationCode`: valid exactly for six ASCII digits. */
  function ValidateVerificationCode(code: string): (r: Option<string>)
    ensures r == None <==> |code| == CODE_LENGTH && AllDigits(code)
    ensures r == Some(CODE_REQUIRED) <==> JsTrim(code) == ""
    ensures r == Some(CODE_WRONG_LENGTH) <==> JsTrim(code) != "" && |code| != CODE_LENGTH
    ensures r == Some(CODE_NOT_NUMERIC) <==> JsTrim(code) != "" && |code| == CODE_LENGTH && !AllDigits(code)
  {
    if JsTrim(code) == "" then
      assert |code| == CODE_LENGTH ==> !IsDigit(code[0]);
      Some(CODE_REQUIRED)
    else if |code| != CODE_LENGTH then Some(CODE_WRONG_LENGTH)
    else if !AllDigits(code) then Some(CODE_NOT_NUMERIC)
    else None
  }

  // ---------------------------------------------------------------------
  // Form validators
  // ---------------------------------------------------------------------

  /** `{ errors, isValid }`. */
  datatype FormCheck = FormCheck(errors: map<string, string>, isValid: bool)

  /** `if (error) errors[key] = error`. */
  function AddError(errors: map<string, string>, key: string, error: Option<string>): map<string, string> {
    if error.Some? then errors[key := error.value] else errors
  }

  /** The field's entry is present exactly when its validator failed, and then holds that message. */
  predicate Reports(errors: map<string, string>, key: string, error: Option<string>) {
    (key in errors <==> error.Some?) && (key in errors ==> errors[key] == error.value)
  }

  /** `validateLoginForm`. */
  function ValidateLoginForm(email: string, password: string): (r: FormCheck)
    ensures Reports(r.errors, "email", ValidateEmail(email))
    ensures Reports(r.errors, "password", ValidatePassword(password))
    ensures r.errors.Keys <= {"email", "password"}
    ensures r.isValid <==> r.errors == map[]
    ensures r.isValid <==> ValidateEmail(email).None? && ValidatePassword(password).None?
  {
    var errors := AddError(AddError(map[], "email", ValidateEmail(email)), "password", ValidatePassword(password));
    assert "email" in errors ==> |errors| > 0;
    FormCheck(errors, |errors| == 0)
  }

  /** `validateRegisterForm`. */
  function ValidateRegisterForm(email: string, password: string, firstName: string, lastName: string): (r: FormCheck)
    ensures Reports(r.errors, "email", ValidateEmail(email))
    ensures Reports(r.errors, "password", ValidatePassword(password))
    ensures Reports(r.errors, "firstName", ValidateName(firstName, "First name"))
    ensures Reports(r.errors, "lastName", ValidateName(lastName, "Last name"))
    ensures r.errors.Keys <= {"email", "password", "firstName", "lastName"}
    ensures r.isValid <==> r.errors == map[]
  {
    var e1 := AddError(map[], "email", ValidateEmail(email));
    var e2 := AddError(e1, "password", ValidatePassword(password));
    var e3 := AddError(e2, "firstName", ValidateName(firstName, "First name"));
    var errors := AddError(e3, "lastName", ValidateName(lastName, "Last name"));
    assert errors != map[] ==> |errors| > 0;
    FormCheck(errors, |errors| == 0)
  }
}
