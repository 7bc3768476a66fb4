/**
 * The login form of src/components/login.tsx: the account rule (a username or
 * an e-mail-like string), the password rule, and the error state `onSubmit`
 * keeps.
 */
module LoginForm {
  import opened Wrappers
  import opened JsStrings

  const AccountRequiredMessage: string := "请输入用户名或邮箱"
  const AccountFormatMessage: string := "用户名或邮箱格式不正确"
  const PasswordRequiredMessage: string := "请输入密码"
  const LoginFailedMessage: string := "登录失败，请检查您的账号和密码"

  /** `[a-zA-Z0-9_-]`. */
  predicate IsUsernameChar(c: char) {
    IsAsciiLetter(c) || IsDigit(c) || c == '_' || c == '-'
  }

  /** `/^[a-zA-Z0-9_-]{4,16}$/`. */
  predicate MatchesUsernamePattern(s: string) {
    4 <= |s| <= 16 && forall k :: 0 <= k < |s| ==> IsUsernameChar(s[k])
  }

  /** `[^\s@]`. */
  predicate IsEmailChar(c: char) {
    c != '@' && !IsWhitespace(c)
  }

  /**
   * `s` reads `local@host.tld` with the "@" at `at` and the "." at `dot`: every
   * other character is in `[^\s@]`, and each of the three parts is non-empty.
   */
  predicate EmailShapeAt(s: string, at: int, dot: int) {
    && 0 < at && at + 1 < dot && dot + 1 < |s|
    && s[at] == '@' && s[dot] == '.'
    && forall k :: 0 <= k < |s| && k != at ==> IsEmailChar(s[k])
  }

  /** The strings `/^[^\s@]+@[^\s@]+\.[^\s@]+$/` accepts, stated as the shape of the match. */
  ghost predicate InEmailLanguage(s: string) {
    exists at, dot :: EmailShapeAt(s, at, dot)
  }

  /** Positions after `from` that hold a "." with at least one character on each side. */
  predicate HasInnerDotAfter(s: string, from: nat) {
    exists k :: from < k < |s| - 1 && s[k] == '.'
  }

  /**
   * The e-mail test as the form runs it: one "@" that is not the first character,
   * no whitespace anywhere, and a "." strictly inside the text after the "@".
   */
  function MatchesEmailPattern(s: string): (ok: bool)
    ensures ok <==> InEmailLanguage(s)
  {
    var at := IndexOf(s, '@');
    var ok := at > 0
      && (forall k :: 0 <= k < |s| ==> !IsWhitespace(s[k]))
      && (forall k :: at < k < |s| ==> s[k] != '@')
      && HasInnerDotAfter(s, at + 1);
    EmailPatternSound(s, at);
    ok
  }

  lemma EmailPatternSound(s: string, at: int)
    requires at == IndexOf(s, '@')
    ensures InEmailLanguage(s) <==>
      at > 0
      && (forall k :: 0 <= k < |s| ==> !IsWhitespace(s[k]))
      && (forall k :: at < k < |s| ==> s[k] != '@')
      && HasInnerDotAfter(s, at + 1)
  {
    if InEmailLanguage(s) {
      var a, d :| EmailShapeAt(s, a, d);
      // the only "@" is the first one
      assert s[a] == '@';
      assert a == at;
      assert s[d] == '.' && at + 1 < d < |s| - 1;
    }
    if at > 0 && (forall k :: 0 <= k < |s| ==> !IsWhitespace(s[k]))
      && (forall k :: at < k < |s| ==> s[k] != '@') && HasInnerDotAfter(s, at + 1)
    {
      var d :| at + 1 < d < |s| - 1 && s[d] == '.';
      assert EmailShapeAt(s, at, d);
    }
  }

  /** The issues zod reports for the account field, in order (the minimum length check and the refinement both run). */
  function AccountIssues(account: string): (issues: seq<string>)
    ensures issues == [] <==> MatchesEmailPattern(account) || MatchesUsernamePattern(account)
    ensures account == "" ==> issues == [AccountRequiredMessage, AccountFormatMessage]
    ensures AccountRequiredMessage in issues ==> account == ""
  {
    (if |account| < 1 then [AccountRequiredMessage] else [])
    + (if MatchesEmailPattern(account) || MatchesUsernamePattern(account) then [] else [AccountFormatMessage])
  }

  /** The submitted values; `remember` may be absent. */
  datatype LoginValues = LoginValues(account: string, password: string, remember: Option<bool>)

  /** The form's initial values. */
  const DefaultValues: LoginValues := LoginValues("", "", Some(true))

  /** The messages of the password field's `min(1)` rule. */
  function PasswordIssues(password: string): (issues: seq<string>)
    ensures issues == [] <==> password != ""
    ensures issues != [] ==> issues == [PasswordRequiredMessage]
  {
    if password == "" then [PasswordRequiredMessage] else []
  }

  /** The form passes validation: a valid account and a non-empty password; `remember` is never checked. */
  predicate LoginValid(v: LoginValues) {
    AccountIssues(v.account) == [] && PasswordIssues(v.password) == []
  }

  /** A username login may use "-", and both patterns exclude whitespace and "@" only where they say so. */
  lemma UsernameWithHyphenAccepted()
    ensures LoginValid(LoginValues("ab-cd", "x", None))
    ensures !LoginValid(LoginValues("abc", "x", None))
    ensures LoginValid(LoginValues("a@b.c", "x", Some(false)))
    ensures !LoginValid(LoginValues("a@b.", "x", None))
  {
    assert EmailShapeAt("a@b.c", 1, 3);
    assert !MatchesEmailPattern("abc");
    assert !MatchesEmailPattern("a@b.");
  }

  /** The form's initial values do not pass validation. */
  lemma DefaultValuesInvalid()
    ensures !LoginValid(DefaultValues)
    ensures DefaultValues.remember.GetOr(false)
  {
  }

  /** The component's error message and where a successful login navigates. */
  class LoginPage {
    var error: Option<string>
    const redirectTo: string

    constructor (redirectTo: string)
      ensures error == None && this.redirectTo == redirectTo
    {
      error := None;
      this.redirectTo := redirectTo;
    }

    /** `onSubmit` after the login call has settled: success clears the error and navigates, failure sets it. */
    method OnSubmit(loginSucceeded: bool) returns (navigateTo: Option<string>)
      modifies this`error
      ensures loginSucceeded ==> error == None && navigateTo == Some(redirectTo)
      ensures !loginSucceeded ==> error == Some(LoginFailedMessage) && navigateTo == None
    {
      if loginSucceeded {
        error := None;
        navigateTo := Some(redirectTo);
      } else {
        error := Some(LoginFailedMessage);
        navigateTo := None;
      }
    }
  }
}
