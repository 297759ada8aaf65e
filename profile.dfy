/** The profile page: the change-password handler (its checks, the message
    it leaves and the fields it clears) and the avatar's initial. */
module Profile {

  import opened Wrappers
  import opened Text

  /** The message box; `IsSuccess` picks the green style. */
  datatype Notice =
    | PasswordMismatch
    | PasswordTooShort
    | PasswordChanged
    | ChangeRejected(message: Option<string>)
    | ConnectionFailed

  predicate IsSuccess(n: Notice) { n == PasswordChanged }

  function NoticeText(n: Notice): string
  {
    match n
    case PasswordMismatch => "Mật khẩu mới không khớp"
    case PasswordTooShort => "Mật khẩu mới phải có ít nhất 6 ký tự"
    case PasswordChanged => "Đổi mật khẩu thành công!"
    case ChangeRejected(m) => OrElse(m, "Đổi mật khẩu thất bại")
    case ConnectionFailed => "Không thể kết nối server"
  }

  const MinPasswordLength := 6

  /** The checks before any request: the confirmation first, then the
      length of the new password. */
  function PasswordCheck(newPassword: string, confirmPassword: string): Option<Notice>
  {
    if newPassword != confirmPassword then Some(PasswordMismatch)
    else if |newPassword| < MinPasswordLength then Some(PasswordTooShort)
    else None
  }

  /** Each check outcome in terms of the two fields; a short password that
      differs from its confirmation reports the mismatch, and only the
      success message is green. */
  lemma PasswordCheckOrder(newPassword: string, confirmPassword: string)
    ensures PasswordCheck(newPassword, confirmPassword) == Some(PasswordMismatch) <==> newPassword != confirmPassword
    ensures PasswordCheck(newPassword, confirmPassword) == Some(PasswordTooShort) <==>
      newPassword == confirmPassword && |newPassword| < MinPasswordLength
    ensures PasswordCheck(newPassword, confirmPassword) == None <==>
      newPassword == confirmPassword && |newPassword| >= MinPasswordLength
    ensures PasswordCheck(newPassword, confirmPassword).Some? ==> !IsSuccess(PasswordCheck(newPassword, confirmPassword).value)
  {
  }

  /** How the change-password request ended: `data.success`, a response
      without success (with its `message`), or no response at all. */
  datatype ChangeResponse = Changed | Rejected(message: Option<string>) | Unreachable

  /** `(user.displayName || user.username || "U").charAt(0).toUpperCase()` */
  function AvatarInitial(displayName: Option<string>, username: Option<string>): (r: string)
    ensures |r| == 1
  {
    var name := OrElse(displayName, OrElse(username, "U"));
    [UpperChar(name[0])]
  }

  /** The initial comes from the display name when it is non-empty, else
      from the username when that is non-empty, else it is "U". */
  lemma AvatarInitialSpec(displayName: Option<string>, username: Option<string>)
    ensures IsTruthy(displayName) ==> AvatarInitial(displayName, username) == [UpperChar(displayName.value[0])]
    ensures !IsTruthy(displayName) && IsTruthy(username) ==>
      AvatarInitial(displayName, username) == [UpperChar(username.value[0])]
    ensures !IsTruthy(displayName) && !IsTruthy(username) ==> AvatarInitial(displayName, username) == "U"
    ensures !('a' <= AvatarInitial(displayName, username)[0] <= 'z')
  {
  }

  class ProfilePage {
    const token: Option<string>
    var currentPassword: string
    var newPassword: string
    var confirmPassword: string
    var isSaving: bool
    var message: Option<Notice>

    constructor (token: Option<string>)
      ensures this.token == token
      ensures currentPassword == "" && newPassword == "" && confirmPassword == ""
      ensures !isSaving && message == None
    {
      this.token := token;
      currentPassword, newPassword, confirmPassword := "", "", "";
      isSaving, message := false, None;
    }

    /** `handleChangePassword`, given how the request ended; `request` is the
        `(currentPassword, newPassword)` body sent, `None` when nothing was
        sent. */
    method HandleChangePassword(response: ChangeResponse) returns (request: Option<(string, string)>)
      modifies this`currentPassword, this`newPassword, this`confirmPassword, this`isSaving, this`message
      ensures token.None? ==> request == None && unchanged(this)
      ensures token.Some? && PasswordCheck(old(newPassword), old(confirmPassword)).Some? ==>
        && request == None
        && message == PasswordCheck(old(newPassword), old(confirmPassword))
        && currentPassword == old(currentPassword) && newPassword == old(newPassword)
        && confirmPassword == old(confirmPassword) && isSaving == old(isSaving)
      ensures token.Some? && PasswordCheck(old(newPassword), old(confirmPassword)).None? ==>
        && request == Some((old(currentPassword), old(newPassword)))
        && !isSaving
        && (response.Changed? ==>
              message == Some(PasswordChanged)
              && currentPassword == "" && newPassword == "" && confirmPassword == "")
        && (!response.Changed? ==>
              currentPassword == old(currentPassword) && newPassword == old(newPassword)
              && confirmPassword == old(confirmPassword))
        && (response.Rejected? ==> message == Some(ChangeRejected(response.message)))
        && (response.Unreachable? ==> message == Some(ConnectionFailed))
    {
      if token.None? {
        return None;
      }
      var check := PasswordCheck(newPassword, confirmPassword);
      if check.Some? {
        message := check;
        return None;
      }
      isSaving := true;
      message := None;
      request := Some((currentPassword, newPassword));
      match response {
        case Changed =>
          message := Some(PasswordChanged);
          currentPassword, newPassword, confirmPassword := "", "", "";
        case Rejected(m) =>
          message := Some(ChangeRejected(m));
        case Unreachable =>
          message := Some(ConnectionFailed);
      }
      isSaving := false;
    }
  }
}
