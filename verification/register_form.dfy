/**
 * The registration form of src/components/register.tsx: the field rules, the
 * resend countdown, and the messages `handleSendCode` and `onSubmit` leave.
 */
module RegisterForm {
  import opened Wrappers
  import opened JsStrings

  const CountdownSeconds: nat := 60
  const CodeSentMessage: string := "验证码已发送至您的邮箱"
  const RegisteredMessage: string := "注册成功，正在跳转..."
  const RegisterFailedMessage: string := "注册失败"

  /** `[a-zA-Z0-9_]`: unlike the login username, no "-". */
  predicate IsUsernameChar(c: char) {
    IsAsciiLetter(c) || IsDigit(c) || c == '_'
  }

  /** The username checks: at least 3, at most 20 characters, and `/^[a-zA-Z0-9_]+$/`. */
  function UsernameIssues(u: string): (issues: seq<string>)
    ensures issues == [] <==> 3 <= |u| <= 20 && forall k :: 0 <= k < |u| ==> IsUsernameChar(u[k])
  {
    (if |u| < 3 then ["用户名至少3个字符"] else [])
    + (if |u| > 20 then ["用户名最多20个字符"] else [])
    + (if |u| > 0 && forall k :: 0 <= k < |u| ==> IsUsernameChar(u[k]) then [] else ["只能包含字母、数字和下划线"])
  }

  /** The verification code check: exactly six characters of any kind, although the message asks for digits. */
  predicate CodeValid(code: string) {
    |code| == 6
  }

  /** `/^(?=.*[A-Za-z])(?=.*\d).+$/`: a non-empty single line holding an ASCII letter and a digit. */
  predicate MatchesPasswordPattern(p: string) {
    && |p| > 0
    && (forall k :: 0 <= k < |p| ==> !IsLineTerminator(p[k]))
    && (exists k :: 0 <= k < |p| && IsAsciiLetter(p[k]))
    && (exists k :: 0 <= k < |p| && IsDigit(p[k]))
  }

  /** The password checks: at least 8 characters and the letter-and-digit pattern. */
  predicate PasswordValid(p: string) {
    |p| >= 8 && MatchesPasswordPattern(p)
  }

  datatype RegisterValues = RegisterValues(username: string, email: string, code: string, password: string, agreement: bool)

  /**
   * The whole schema. The e-mail rule is zod's own `.email()` check, whose
   * definition is not part of this model, so its verdict is a parameter.
   */
  predicate RegisterValid(v: RegisterValues, emailAccepted: bool) {
    UsernameIssues(v.username) == [] && emailAccepted && CodeValid(v.code) && PasswordValid(v.password) && v.agreement
  }

  /** Concrete consequences of the rules: a login-style username with "-" is refused, a letter code is accepted, a password without a digit is refused. */
  lemma RegisterRuleExamples()
    ensures UsernameIssues("ab-cd") != []
    ensures UsernameIssues("ab_cd") == []
    ensures CodeValid("abcdef")
    ensures !PasswordValid("abcdefgh")
    ensures PasswordValid("abcdefg1")
    ensures !PasswordValid("abcd\n123")
  {
    assert !IsUsernameChar("ab-cd"[2]);
    assert IsAsciiLetter("abcdefg1"[0]) && IsDigit("abcdefg1"[7]);
    assert IsLineTerminator("abcd\n123"[4]);
  }

  /** One timer tick of the countdown effect. */
  function Tick(countdown: nat): (r: nat)
    ensures countdown > 0 ==> r == countdown - 1
    ensures countdown == 0 ==> r == 0
  {
    if countdown > 0 then countdown - 1 else 0
  }

  /** The countdown after `n` ticks. */
  function TickN(countdown: nat, n: nat): nat {
    if n == 0 then countdown else TickN(Tick(countdown), n - 1)
  }

  /** After `n` ticks the countdown has gone down by `n`, stopping at zero. */
  lemma {:induction false} TickNValue(countdown: nat, n: nat)
    ensures TickN(countdown, n) == if countdown >= n then countdown - n else 0
  {
    if n > 0 {
      TickNValue(Tick(countdown), n - 1);
    }
  }

  /** The error message a failed request leaves: the server's message when it is non-empty, otherwise the fallback. */
  function FailureMessage(serverMessage: Option<string>, fallback: string): (m: string)
    ensures serverMessage.Some? && serverMessage.value != "" ==> m == serverMessage.value
    ensures serverMessage.None? || serverMessage.value == "" ==> m == fallback
  {
    if serverMessage.Some? && serverMessage.value != "" then serverMessage.value else fallback
  }

  /** How a backend call settled: resolved, or rejected with the server's message if any. */
  datatype CallOutcome = Resolved | Rejected(serverMessage: Option<string>)

  /** The component's state. */
  class RegisterPage {
    var countdown: nat
    var errorMessage: string
    var successMessage: string
    const redirectTo: string

    constructor (redirectTo: string)
      ensures countdown == 0 && errorMessage == "" && successMessage == "" && this.redirectTo == redirectTo
    {
      countdown := 0;
      errorMessage := "";
      successMessage := "";
      this.redirectTo := redirectTo;
    }

    /** The countdown effect firing once. */
    method TickCountdown()
      modifies this`countdown
      ensures countdown == Tick(old(countdown))
    {
      if countdown > 0 {
        countdown := countdown - 1;
      }
    }

    /**
     * `handleSendCode`: whatever the field validation says, start the countdown,
     * post the e-mail (returned as the request made; the post is not awaited)
     * and report success.
     */
    method HandleSendCode(values: RegisterValues, fieldsValid: bool) returns (postedEmail: string)
      modifies this`countdown, this`errorMessage, this`successMessage
      ensures countdown == CountdownSeconds
      ensures postedEmail == values.email
      ensures successMessage == CodeSentMessage && errorMessage == ""
    {
      countdown := CountdownSeconds;
      postedEmail := values.email;
      successMessage := CodeSentMessage;
      errorMessage := "";
    }

    /**
     * `onSubmit`: register, then log in; on success report it and navigate
     * (`onSuccess` returns nothing, so `router.push` always runs), on the first
     * failure keep the server's message. The success path leaves
     * `errorMessage` as it was.
     */
    method OnSubmit(register: CallOutcome, login: CallOutcome) returns (navigateTo: Option<string>)
      modifies this`errorMessage, this`successMessage
      ensures register.Resolved? && login.Resolved? ==>
        successMessage == RegisteredMessage && errorMessage == old(errorMessage) && navigateTo == Some(redirectTo)
      ensures register.Rejected? ==>
        errorMessage == FailureMessage(register.serverMessage, RegisterFailedMessage)
        && successMessage == old(successMessage) && navigateTo.None?
      ensures register.Resolved? && login.Rejected? ==>
        errorMessage == FailureMessage(login.serverMessage, RegisterFailedMessage)
        && successMessage == old(successMessage) && navigateTo.None?
    {
      navigateTo := None;
      if register.Rejected? {
        errorMessage := FailureMessage(register.serverMessage, RegisterFailedMessage);
      } else if login.Rejected? {
        errorMessage := FailureMessage(login.serverMessage, RegisterFailedMessage);
      } else {
        successMessage := RegisteredMessage;
        navigateTo := Some(redirectTo);
      }
    }
  }
}
