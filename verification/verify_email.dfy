/**
 * The verification page (pages/VerifyEmailPage.tsx): a six-slot code
 * buffer edited by typing, backspace and paste, submitted through the
 * session context, plus the resend action.
 */
module VerifyEmail {
  import opened Wrappers
  import opened Text
  import opened Types
  import opened Api
  import opened AuthGateway
  import opened AuthContext
  import Validation
  import Endpoints

  const SLOTS: nat := 6
  const LAST_SLOT: nat := 5
  const EMPTY_CODE: seq<string> := ["", "", "", "", "", ""]
  const BACKSPACE: string := "Backspace"

  const INCOMPLETE_CODE: string := "Please enter all 6 digits"
  const VERIFY_FAILED: string := "Verification failed. Please try again."
  const EMAIL_MISSING: string := "Email not found. Please go back to registration."
  const RESEND_FAILED: string := "Failed to resend code. Please try again."
  const CODE_RESENT: string := "New verification code sent!"

  /** A slot holds nothing or one decimal digit. */
  predicate SlotOk(v: string) {
    v == "" || (|v| == 1 && IsDigit(v[0]))
  }

  predicate WellFormed(code: seq<string>) {
    |code| == SLOTS && forall i :: 0 <= i < |code| ==> SlotOk(code[i])
  }

  /** `code.every((digit) => digit !== "")`. */
  predicate IsCodeComplete(code: seq<string>)
    ensures IsCodeComplete(code) <==> "" !in code
  {
    forall i :: 0 <= i < |code| ==> code[i] != ""
  }

  /** `handleCodeChange`'s two guards: at most one character, and that one a digit (`/^\d$/`). */
  predicate AcceptsChange(value: string) {
    !(|value| > 1) && !(value != "" && !IsDigit(value[0]))
  }

  /** The guards let through exactly the values a slot may hold. */
  lemma AcceptsExactlySlotValues(value: string)
    ensures AcceptsChange(value) <==> SlotOk(value)
  {
  }

  /** `code.join("")`. */
  function Join(code: seq<string>): string {
    if code == [] then "" else code[0] + Join(code[1..])
  }

  /** Number of filled slots. */
  function Filled(code: seq<string>): (n: nat)
    ensures n <= |code|
    ensures n == |code| <==> IsCodeComplete(code)
  {
    if code == [] then 0
    else
      var rest := Filled(code[1..]);
      assert IsCodeComplete(code) <==> code[0] != "" && IsCodeComplete(code[1..]) by {
        if code[0] != "" && IsCodeComplete(code[1..]) {
          forall i | 0 <= i < |code| ensures code[i] != "" {
            if i > 0 { assert code[i] == code[1..][i - 1]; }
          }
        }
      }
      (if code[0] == "" then 0 else 1) + rest
  }

  lemma {:induction false} JoinLength(code: seq<string>)
    requires forall i :: 0 <= i < |code| ==> SlotOk(code[i])
    ensures |Join(code)| == Filled(code)
    ensures AllDigits(Join(code))
  {
    if code != [] {
      JoinLength(code[1..]);
      var j := Join(code);
      assert j == code[0] + Join(code[1..]);
      forall k | 0 <= k < |j| ensures IsDigit(j[k]) {
        if k >= |code[0]| { assert j[k] == Join(code[1..])[k - |code[0]|]; }
      }
    }
  }

  /** On a well-formed buffer, "the joined code has six characters" is the same test as `isCodeComplete`. */
  lemma SixCharactersIffComplete(code: seq<string>)
    requires WellFormed(code)
    ensures |Join(code)| == SLOTS <==> IsCodeComplete(code)
  {
    JoinLength(code);
  }

  /** A complete buffer always joins to a code the field validator accepts. */
  lemma CompleteCodeIsValid(code: seq<string>)
    requires WellFormed(code) && IsCodeComplete(code)
    ensures Validation.ValidateVerificationCode(Join(code)) == None
  {
    JoinLength(code);
  }

  /** `text.replace(/\D/g, "")`: the digits of `text`, in order. */
  function DigitsOf(text: string): (r: string)
    ensures AllDigits(r) && |r| <= |text|
    ensures AllDigits(text) ==> r == text
  {
    if text == [] then ""
    else
      var rest := DigitsOf(text[1..]);
      if IsDigit(text[0]) then [text[0]] + rest else rest
  }

  /** The store after a verification reply: persisted when it carries a token, cleared by a 401. */
  function AfterReply(items: map<string, string>, reply: Reply<AuthResponse>): map<string, string> {
    match reply
    case Failed(response) => AfterFailure(items, response)
    case Delivered(data) => if data.token != "" then WithAuthData(items, data) else items
  }

  /** The filter works character by character: a single character is kept exactly when it is a digit. */
  lemma DigitsOfChar(c: char)
    ensures DigitsOf([c]) == if IsDigit(c) then [c] else []
  {
    assert [c][1..] == [];
  }

  /** Filtering a concatenation filters each part, so every digit is kept, in order. */
  lemma {:induction false} DigitsOfConcat(a: string, b: string)
    ensures DigitsOf(a + b) == DigitsOf(a) + DigitsOf(b)
  {
    if a != [] {
      DigitsOfConcat(a[1..], b);
      assert (a + b)[0] == a[0];
      assert (a + b)[1..] == a[1..] + b;
    } else {
      assert a + b == b;
    }
  }

  /** A pasted code with a separator, such as `123-456`, yields its six digits. */
  lemma PasteWithSeparator()
    ensures DigitsOf("123-456") == "123456"
  {
    var front, sep, back := "123", "-", "456";
    assert AllDigits(front) && AllDigits(back);
    assert "123-456" == front + (sep + back);
    DigitsOfConcat(front, sep + back);
    DigitsOfConcat(sep, back);
    DigitsOfChar('-');
    assert front + back == "123456";
  }

  /** The message the page shows for a thrown error: `error.error || fallback`. */
  function ShownError(t: Thrown, fallback: string): string {
    if t.Remote? && t.apiError.error != "" then t.apiError.error else fallback
  }

  class VerifyEmailPage {
    /** `urlParams.get("email") || ""`. */
    const email: string
    const auth: AuthProvider

    var code: seq<string>
    var apiError: string
    var successMessage: string
    var isSubmitting: bool
    var resendLoading: bool
    /** The input the page last moved the focus to. */
    var focus: nat

    ghost predicate Valid()
      reads this, auth
    {
      WellFormed(code) && focus < SLOTS && auth.Valid()
    }

    /** Mounting the page: an empty buffer, the first input focused. */
    constructor (emailParam: Option<string>, auth: AuthProvider)
      requires auth.Valid()
      ensures Valid()
      ensures email == (if emailParam.Some? then emailParam.value else "") && this.auth == auth
      ensures code == EMPTY_CODE && focus == 0
      ensures apiError == "" && successMessage == "" && !isSubmitting && !resendLoading
    {
      email := if emailParam.Some? && emailParam.value != "" then emailParam.value else "";
      this.auth := auth;
      code := EMPTY_CODE;
      apiError := "";
      successMessage := "";
      isSubmitting := false;
      resendLoading := false;
      focus := 0;
    }

    /** `handleCodeChange(index, value)`. */
    method HandleCodeChange(index: nat, value: string)
      requires Valid() && index < SLOTS
      modifies this
      ensures Valid()
      ensures !SlotOk(value) ==> code == old(code) && focus == old(focus)
      ensures SlotOk(value) ==> code == old(code)[index := value]
      ensures focus == (if SlotOk(value) && value != "" && index < LAST_SLOT then index + 1 else old(focus))
      ensures apiError == old(apiError) && successMessage == old(successMessage)
      ensures isSubmitting == old(isSubmitting) && resendLoading == old(resendLoading)
    {
      if |value| > 1 {
        return;
      }
      if value != "" && !IsDigit(value[0]) {
        return;
      }
      code := code[index := value];
      if value != "" && index < LAST_SLOT {
        focus := index + 1;
      }
    }

    /** `handleKeyDown(index, e)`: backspace on an empty slot moves the focus back one input. */
    method HandleKeyDown(index: nat, key: string)
      requires Valid() && index < SLOTS
      modifies this
      ensures Valid()
      ensures focus == (if key == BACKSPACE && code[index] == "" && index > 0 then index - 1 else old(focus))
      ensures code == old(code) && apiError == old(apiError) && successMessage == old(successMessage)
      ensures isSubmitting == old(isSubmitting) && resendLoading == old(resendLoading)
    {
      if key == BACKSPACE && code[index] == "" && index > 0 {
        focus := index - 1;
      }
    }

    /** `handlePaste(e)`: six or more pasted digits fill the whole buffer; fewer change nothing. */
    method HandlePaste(text: string)
      requires Valid()
      modifies this
      ensures Valid()
      ensures |DigitsOf(text)| >= SLOTS ==>
                && IsCodeComplete(code)
                && Join(code) == DigitsOf(text)[..SLOTS]
                && (forall i :: 0 <= i < SLOTS ==> code[i] == [DigitsOf(text)[i]])
                && focus == LAST_SLOT
      ensures |DigitsOf(text)| < SLOTS ==> code == old(code) && focus == old(focus)
      ensures apiError == old(apiError) && successMessage == old(successMessage)
      ensures isSubmitting == old(isSubmitting) && resendLoading == old(resendLoading)
    {
      var digits := DigitsOf(text);
      var pasted := digits[..if |digits| < SLOTS then |digits| else SLOTS];
      if |pasted| == SLOTS {
        code := seq(SLOTS, i requires 0 <= i < SLOTS => [pasted[i]]);
        focus := LAST_SLOT;
        assert Join(code) == pasted by {
          assert Join(code[5..]) == [pasted[5]];
          assert Join(code[4..]) == [pasted[4], pasted[5]];
          assert Join(code[3..]) == pasted[3..];
          assert Join(code[2..]) == pasted[2..];
          assert Join(code[1..]) == pasted[1..];
        }
      }
    }

    /**
     * `handleSubmit(e)`: the code is sent only when the buffer is complete;
     * a failed verification shows the error and empties the buffer.
     */
    method HandleSubmit(reply: Reply<AuthResponse>) returns (request: Option<Request<VerificationData>>)
      requires Valid()
      modifies this, auth, auth.browser
      ensures Valid()
      ensures request ==
                (if IsCodeComplete(old(code))
                 then Some(Outgoing(Endpoints.VERIFY_EMAIL, VerificationData(email, Join(old(code))), old(auth.browser.items)))
                 else None)
      ensures request.None? ==>
                && apiError == INCOMPLETE_CODE && code == old(code) && focus == old(focus)
                && auth.state == old(auth.state) && auth.browser.items == old(auth.browser.items)
      ensures request.Some? ==>
                && auth.browser.items == AfterReply(old(auth.browser.items), reply)
                && auth.browser.href ==
                     (if reply.Failed? then LocationAfterFailure(old(auth.browser.href), reply.response)
                      else old(auth.browser.href))
      ensures request.None? ==> auth.browser.href == old(auth.browser.href)
      ensures request.Some? && reply.Failed? ==>
                && apiError == ToApiError(reply.response).error
                && code == EMPTY_CODE && focus == 0
                && auth.state == old(auth.state).(loading := false)
      ensures request.Some? && reply.Delivered? && reply.data.token != "" ==>
                && apiError == "" && code == old(code) && focus == old(focus)
                && auth.state == AuthState(true, Some(UserOf(reply.data)), false)
      ensures request.Some? && reply.Delivered? && reply.data.token == "" ==>
                match GetUser(old(auth.browser.items))
                case Err(_) =>
                  && apiError == VERIFY_FAILED && code == EMPTY_CODE && focus == 0
                  && auth.state == old(auth.state).(loading := false)
                case Ok(None) =>
                  && apiError == "" && code == old(code) && focus == old(focus)
                  && auth.state == old(auth.state).(loading := true)
                case Ok(Some(stale)) =>
                  && apiError == "" && code == old(code) && focus == old(focus)
                  && auth.state == AuthState(true, Some(stale), false)
      ensures isSubmitting == (if request.Some? then false else old(isSubmitting))
      ensures successMessage == old(successMessage) && resendLoading == old(resendLoading)
    {
      var codeString := Join(code);
      SixCharactersIffComplete(code);
      if |codeString| != SLOTS {
        apiError := INCOMPLETE_CODE;
        return None;
      }
      isSubmitting := true;
      apiError := "";
      var q, r := auth.VerifyEmail(email, codeString, reply);
      request := Some(q);
      if r.Err? {
        apiError := ShownError(r.error, VERIFY_FAILED);
        code := EMPTY_CODE;
        focus := 0;
      }
      isSubmitting := false;
    }

    /** `handleResendCode()`: without an e-mail address no request is made. */
    method HandleResendCode(reply: Reply<MessageReply>) returns (request: Option<Request<EmailBody>>)
      requires Valid()
      modifies this, auth.browser
      ensures Valid()
      ensures request ==
                (if email != ""
                 then Some(Outgoing(Endpoints.RESEND_CODE, EmailBody(email), old(auth.browser.items)))
                 else None)
      ensures request.None? ==>
                && apiError == EMAIL_MISSING && code == old(code) && focus == old(focus)
                && successMessage == old(successMessage) && auth.browser.items == old(auth.browser.items)
      ensures request.Some? && reply.Delivered? ==>
                apiError == "" && successMessage == CODE_RESENT && code == EMPTY_CODE && focus == 0
      ensures request.Some? && reply.Failed? ==>
                && apiError == ToApiError(reply.response).error && successMessage == ""
                && code == old(code) && focus == old(focus)
      ensures request.Some? ==>
                auth.browser.items ==
                  (if reply.Failed? then AfterFailure(old(auth.browser.items), reply.response)
                   else old(auth.browser.items))
      ensures auth.browser.href ==
                (if request.Some? && reply.Failed? then LocationAfterFailure(old(auth.browser.href), reply.response)
                 else old(auth.browser.href))
      ensures resendLoading == (if request.Some? then false else old(resendLoading))
      ensures isSubmitting == old(isSubmitting)
    {
      if email == "" {
        apiError := EMAIL_MISSING;
        return None;
      }
      resendLoading := true;
      apiError := "";
      successMessage := "";
      var q, r := auth.ResendVerificationCode(email, reply);
      request := Some(q);
      if r.Ok? {
        successMessage := CODE_RESENT;
        code := EMPTY_CODE;
        focus := 0;
      } else {
        apiError := ShownError(r.error, RESEND_FAILED);
      }
      resendLoading := false;
    }
  }
}
