/**
 * The account menu of src/components/custom-user-button.tsx: the e-mail mask,
 * the two dialog flags, the verification-code countdown, the password form and
 * the avatar upload and removal.
 */
module UserButton {
  import opened Wrappers
  import opened JsStrings
  import RegisterForm

  const CountdownSeconds: nat := 60
  const CodeSentMessage: string := "验证码已发送至注册邮箱"
  const NewPasswordMissingMessage: string := "请输入新密码"
  const PasswordMismatchMessage: string := "新密码与确认密码不匹配"
  const CodeMissingMessage: string := "请输入验证码"
  const PasswordUpdatedMessage: string := "密码更新成功"
  const UpdateFailedMessage: string := "更新失败"
  const AvatarUpdatedMessage: string := "头像更新成功"
  const AvatarRemovedMessage: string := "头像已删除"
  const AvatarUploadFailedMessage: string := "头像上传失败"
  const AvatarRemoveFailedMessage: string := "头像删除失败"

  /** `local.slice(0, 2) + "***" + local.slice(-2)`. */
  function MaskLocal(local: string): string {
    Slice(local, 0, 2) + "***" + SliceFrom(local, -2)
  }

  /**
   * The mask keeps the first two and the last two characters (overlapping when
   * the part is short), so its length reveals nothing about a local part of
   * two characters or more.
   */
  lemma MaskLocalShape(local: string)
    ensures |local| >= 2 ==> MaskLocal(local) == local[..2] + "***" + local[|local| - 2..]
    ensures |local| < 2 ==> MaskLocal(local) == local + "***" + local
    ensures |local| >= 2 ==> |MaskLocal(local)| == 7
  {
    SliceFromNegative(local, 2);
    assert local[0..|local|] == local;
  }

  /**
   * `obfuscateEmail`: "" for "", otherwise the masked text before the first
   * "@", followed by "@" and the text between the first and the second "@"
   * when that text is non-empty.
   */
  function ObfuscateEmail(email: string): (r: string)
    ensures email == "" ==> r == ""
    ensures email != "" && '@' !in email ==> r == MaskLocal(email)
    ensures email != "" ==> StartsWith(r, MaskLocal(Split(email, '@')[0]))
    ensures '@' in email ==>
      var at := IndexOf(email, '@');
      var rest := email[at + 1..];
      var domain := if IndexOf(rest, '@') < 0 then rest else rest[..IndexOf(rest, '@')];
      r == MaskLocal(email[..at]) + (if domain == "" then "" else "@" + domain)
  {
    if email == "" then ""
    else
      var pieces := Split(email, '@');
      SplitFirstPieces(email, '@');
      var masked := MaskLocal(pieces[0]);
      assert (masked + [])[..|masked|] == masked;
      if |pieces| > 1 && pieces[1] != "" then masked + "@" + pieces[1] else masked
  }

  /** An address with a single "@" keeps its domain and masks its local part. */
  lemma {:induction false} ObfuscateSingleAt(local: string, domain: string)
    requires '@' !in local && '@' !in domain
    ensures domain != "" ==> ObfuscateEmail(local + "@" + domain) == MaskLocal(local) + "@" + domain
    ensures domain == "" ==> ObfuscateEmail(local + "@" + domain) == MaskLocal(local)
  {
    var email := local + "@" + domain;
    assert email[|local|] == '@';
    assert forall k :: 0 <= k < |local| ==> email[k] == local[k];
    assert IndexOf(email, '@') == |local|;
    assert email[..|local|] == local;
    assert email[|local| + 1..] == domain;
    assert IndexOf(domain, '@') < 0;
    SplitFirstPieces(email, '@');
  }

  /** A short text without "@" is shown twice around the stars. */
  lemma ObfuscateShortExample()
    ensures ObfuscateEmail("bo") == "bo***bo"
  {
    MaskLocalShape("bo");
  }

  /** A further "@" cuts the shown domain short. */
  lemma ObfuscateSecondAtExample()
    ensures ObfuscateEmail("a@b@c") == "a***a@b"
  {
    var e := "a@b@c";
    assert e[1] == '@' && e[0] != '@';
    assert IndexOf(e, '@') == 1;
    assert e[2..] == "b@c";
    assert "b@c"[1] == '@' && "b@c"[0] != '@';
    assert IndexOf("b@c", '@') == 1;
    SplitFirstPieces(e, '@');
    MaskLocalShape("a");
  }

  /** The warning toasts of `handlePasswordUpdate`, in order. */
  function PasswordFormWarnings(newPassword: string, confirmPassword: string, emailCode: string): (warnings: seq<string>)
    ensures warnings == [] <==> newPassword != "" && newPassword == confirmPassword && emailCode != ""
    ensures (NewPasswordMissingMessage in warnings) <==> newPassword == ""
    ensures (PasswordMismatchMessage in warnings) <==> newPassword != confirmPassword
    ensures (CodeMissingMessage in warnings) <==> emailCode == ""
  {
    (if newPassword == "" then [NewPasswordMissingMessage] else [])
    + (if newPassword != confirmPassword then [PasswordMismatchMessage] else [])
    + (if emailCode == "" then [CodeMissingMessage] else [])
  }

  /** The body of the `PUT /users/password` request. */
  datatype PasswordRequest = PasswordRequest(newPassword: string, emailCode: string)

  /** What the component renders while the session loads, without a session, and with one. */
  datatype View = Skeleton | LoginLink | Menu

  function ViewFor(isLoading: bool, isAuthenticated: bool): (v: View)
    ensures v == Menu <==> !isLoading && isAuthenticated
    ensures isLoading ==> v == Skeleton
    ensures !isLoading && !isAuthenticated ==> v == LoginLink
  {
    if isLoading then Skeleton else if !isAuthenticated then LoginLink else Menu
  }

  /** The two entries of `openStates`. */
  datatype DialogKey = Confirm | Account

  /** The component's state. */
  class UserButtonState {
    const userEmail: Option<string>
    var avatarUrl: Option<string>
    var confirmOpen: bool
    var accountOpen: bool
    var countdown: nat
    var isSending: bool
    var newPassword: string
    var confirmPassword: string
    var emailCode: string
    var isUploading: bool
    var confirmDeleteOpen: bool

    constructor (userEmail: Option<string>, avatarUrl: Option<string>)
      ensures this.userEmail == userEmail && this.avatarUrl == avatarUrl
      ensures !confirmOpen && !accountOpen && countdown == 0 && !isSending
      ensures newPassword == "" && confirmPassword == "" && emailCode == ""
      ensures !isUploading && !confirmDeleteOpen
    {
      this.userEmail := userEmail;
      this.avatarUrl := avatarUrl;
      confirmOpen := false;
      accountOpen := false;
      countdown := 0;
      isSending := false;
      newPassword := "";
      confirmPassword := "";
      emailCode := "";
      isUploading := false;
      confirmDeleteOpen := false;
    }

    /** The "send code" button is disabled while a send is in progress or the countdown runs. */
    predicate SendDisabled()
      reads this
    {
      isSending || countdown > 0
    }

    /** `toggleDialog(key, value)`: only the named flag changes. */
    method ToggleDialog(key: DialogKey, value: bool)
      modifies this`confirmOpen, this`accountOpen
      ensures key == Confirm ==> confirmOpen == value && accountOpen == old(accountOpen)
      ensures key == Account ==> accountOpen == value && confirmOpen == old(confirmOpen)
    {
      match key
      case Confirm => confirmOpen := value;
      case Account => accountOpen := value;
    }

    /** The "confirm logout" button: log out (reported as `true`) and close the confirmation. */
    method ConfirmLogout() returns (loggedOut: bool)
      modifies this`confirmOpen, this`accountOpen
      ensures loggedOut && !confirmOpen && accountOpen == old(accountOpen)
    {
      loggedOut := true;
      ToggleDialog(Confirm, false);
    }

    /** One tick of the interval timer. */
    method TickCountdown()
      modifies this`countdown
      ensures countdown == RegisterForm.Tick(old(countdown))
    {
      countdown := if countdown > 0 then countdown - 1 else 0;
    }

    /**
     * `handleSendVerificationCode`: nothing without an e-mail; otherwise start
     * the countdown and post the e-mail (returned as the request made, not
     * awaited).
     */
    method HandleSendVerificationCode() returns (postedEmail: Option<string>, toast: Option<string>)
      modifies this`countdown, this`isSending
      ensures userEmail.None? || userEmail.value == "" ==>
        postedEmail.None? && toast.None? && countdown == old(countdown) && isSending == old(isSending)
      ensures userEmail.Some? && userEmail.value != "" ==>
        postedEmail == userEmail && toast == Some(CodeSentMessage) && countdown == CountdownSeconds && !isSending
      ensures userEmail.Some? && userEmail.value != "" ==> SendDisabled()
    {
      if userEmail.None? || userEmail.value == "" {
        return None, None;
      }
      isSending := true;
      countdown := CountdownSeconds;
      postedEmail := userEmail;
      toast := Some(CodeSentMessage);
      isSending := false;
    }

    /**
     * `handlePasswordUpdate`. The checks only raise toasts: the request is sent
     * in every case. `failure` is `None` when the request succeeds, otherwise
     * the error's message (possibly empty).
     */
    method HandlePasswordUpdate(failure: Option<string>) returns (toasts: seq<string>, request: PasswordRequest, loggedOut: bool)
      modifies this`newPassword, this`confirmPassword, this`emailCode
      ensures request == PasswordRequest(old(newPassword), old(emailCode))
      ensures |toasts| == |PasswordFormWarnings(old(newPassword), old(confirmPassword), old(emailCode))| + 1
      ensures toasts[..|toasts| - 1] == PasswordFormWarnings(old(newPassword), old(confirmPassword), old(emailCode))
      ensures failure.None? ==>
        toasts[|toasts| - 1] == PasswordUpdatedMessage && loggedOut
        && newPassword == "" && confirmPassword == "" && emailCode == ""
      ensures failure.Some? ==>
        toasts[|toasts| - 1] == RegisterForm.FailureMessage(failure, UpdateFailedMessage) && !loggedOut
        && newPassword == old(newPassword) && confirmPassword == old(confirmPassword) && emailCode == old(emailCode)
    {
      var warnings := PasswordFormWarnings(newPassword, confirmPassword, emailCode);
      request := PasswordRequest(newPassword, emailCode);
      if failure.None? {
        toasts := warnings + [PasswordUpdatedMessage];
        newPassword, confirmPassword, emailCode := "", "", "";
        loggedOut := true;
      } else {
        toasts := warnings + [RegisterForm.FailureMessage(failure, UpdateFailedMessage)];
        loggedOut := false;
      }
      assert toasts[..|toasts| - 1] == warnings;
    }

    /**
     * `uploadAvatar`: `withFile` tells an upload from a removal; `response` is
     * the stored URL, or `None` when cropping or the request fails. The user's
     * avatar becomes the URL, or nothing for a removal.
     */
    method UploadAvatar(withFile: bool, response: Option<string>) returns (toast: string)
      modifies this`avatarUrl, this`isUploading
      ensures !isUploading
      ensures response.Some? && withFile ==> avatarUrl == response && toast == AvatarUpdatedMessage
      ensures response.Some? && !withFile ==> avatarUrl.None? && toast == AvatarRemovedMessage
      ensures response.None? ==> avatarUrl == old(avatarUrl)
      ensures response.None? ==> toast == if withFile then AvatarUploadFailedMessage else AvatarRemoveFailedMessage
    {
      isUploading := true;
      if response.Some? {
        avatarUrl := if withFile then response else None;
        toast := if withFile then AvatarUpdatedMessage else AvatarRemovedMessage;
      } else {
        toast := if withFile then AvatarUploadFailedMessage else AvatarRemoveFailedMessage;
      }
      isUploading := false;
    }

    /** `handleFileUpload`: upload only when a file was chosen. */
    method HandleFileUpload(fileChosen: bool, response: Option<string>) returns (toast: Option<string>)
      modifies this`avatarUrl, this`isUploading
      ensures !fileChosen ==> toast.None? && avatarUrl == old(avatarUrl) && isUploading == old(isUploading)
      ensures fileChosen && response.Some? ==> avatarUrl == response && toast == Some(AvatarUpdatedMessage)
      ensures fileChosen && response.None? ==> avatarUrl == old(avatarUrl) && toast == Some(AvatarUploadFailedMessage)
    {
      toast := None;
      if fileChosen {
        var t := UploadAvatar(true, response);
        toast := Some(t);
      }
    }

    /** `handleDeleteAvatar`: remove the avatar and close the confirmation, whatever the outcome. */
    method HandleDeleteAvatar(response: Option<string>) returns (toast: string)
      modifies this`avatarUrl, this`isUploading, this`confirmDeleteOpen
      ensures !confirmDeleteOpen && !isUploading
      ensures response.Some? ==> avatarUrl.None? && toast == AvatarRemovedMessage
      ensures response.None? ==> avatarUrl == old(avatarUrl) && toast == AvatarRemoveFailedMessage
    {
      toast := UploadAvatar(false, response);
      confirmDeleteOpen := false;
    }
  }
}
