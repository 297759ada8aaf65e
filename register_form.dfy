/** The registration form: editing one field at a time, and the submit
    handler's validation order and request. */
module RegisterForm {

  import opened Wrappers

  /** The `name` attributes of the form's inputs. */
  datatype FieldName = Username | Email | DisplayName | Password | ConfirmPassword

  datatype FormData = FormData(username: string, email: string, displayName: string, password: string, confirmPassword: string)

  const EmptyForm := FormData("", "", "", "", "")

  function Get(f: FormData, name: FieldName): string
  {
    match name
    case Username => f.username
    case Email => f.email
    case DisplayName => f.displayName
    case Password => f.password
    case ConfirmPassword => f.confirmPassword
  }

  /** `{ ...formData, [name]: value }` */
  function WithField(f: FormData, name: FieldName, value: string): FormData
  {
    match name
    case Username => f.(username := value)
    case Email => f.(email := value)
    case DisplayName => f.(displayName := value)
    case Password => f.(password := value)
    case ConfirmPassword => f.(confirmPassword := value)
  }

  /** Setting a field changes that field and no other, and setting it back
      to what it held gives the form back. */
  lemma WithFieldSpec(f: FormData, name: FieldName, value: string)
    ensures Get(WithField(f, name, value), name) == value
    ensures forall other :: other != name ==> Get(WithField(f, name, value), other) == Get(f, other)
    ensures WithField(WithField(f, name, value), name, Get(f, name)) == f
  {
  }

  /** The error messages. */
  datatype Notice = Mismatch | TooShort | RegisterFailed(message: Option<string>)

  function NoticeText(n: Notice): string
  {
    match n
    case Mismatch => "Mật khẩu xác nhận không khớp"
    case TooShort => "Mật khẩu phải có ít nhất 6 ký tự"
    case RegisterFailed(m) => m.GetOr("Đăng ký thất bại")
  }

  const MinPasswordLength := 6

  /** The first check that fails, if any: the confirmation, then the
      length. */
  function Validate(f: FormData): Option<Notice>
  {
    if f.password != f.confirmPassword then Some(Mismatch)
    else if |f.password| < MinPasswordLength then Some(TooShort)
    else None
  }

  /** Each outcome of the checks in terms of the form; a short password
      that also differs from its confirmation reports the mismatch. */
  lemma ValidateOrder(f: FormData)
    ensures Validate(f) == Some(Mismatch) <==> f.password != f.confirmPassword
    ensures Validate(f) == Some(TooShort) <==> f.password == f.confirmPassword && |f.password| < MinPasswordLength
    ensures Validate(f) == None <==> f.password == f.confirmPassword && |f.password| >= MinPasswordLength
    ensures Validate(f).Some? ==> Validate(f).value.Mismatch? || Validate(f).value.TooShort?
  {
  }

  /** What `register` receives; there is no confirmation field. */
  datatype RegisterRequest = RegisterRequest(username: string, email: string, displayName: string, password: string)

  function RequestOf(f: FormData): (r: RegisterRequest)
  {
    RegisterRequest(f.username, f.email, f.displayName, f.password)
  }

  /** The request carries the four fields as typed, and two forms that
      differ only in the confirmation send the same request. */
  lemma RequestIgnoresConfirmation(f: FormData, confirm: string)
    ensures RequestOf(f) == RequestOf(WithField(f, ConfirmPassword, confirm))
    ensures RequestOf(f).password == Get(f, Password) && RequestOf(f).username == Get(f, Username)
    ensures RequestOf(f).email == Get(f, Email) && RequestOf(f).displayName == Get(f, DisplayName)
  {
  }

  class RegisterFormState {
    var formData: FormData
    /** `error`; `None` is the empty string. */
    var error: Option<Notice>
    var isLoading: bool

    constructor ()
      ensures formData == EmptyForm && error == None && !isLoading
    {
      formData, error, isLoading := EmptyForm, None, false;
    }

    /** `handleChange` for the input named `name`. */
    method HandleChange(name: FieldName, value: string)
      modifies this`formData
      ensures formData == WithField(old(formData), name, value)
    {
      formData := WithField(formData, name, value);
    }

    /** `handleSubmit`, given how `register` ended; `request` is what it was
        called with, `None` when it was not called. */
    method HandleSubmit(outcome: ApiOutcome) returns (request: Option<RegisterRequest>)
      modifies this`error, this`isLoading
      ensures Validate(formData).Some? ==>
        request == None && error == Validate(formData) && isLoading == old(isLoading)
      ensures Validate(formData).None? ==> request == Some(RequestOf(formData)) && !isLoading
      ensures Validate(formData).None? && outcome.Resolved? ==> error == None
      ensures Validate(formData).None? && outcome.Threw? ==> error == Some(RegisterFailed(outcome.message))
    {
      error := None;
      var f := formData;
      if f.password != f.confirmPassword {
        error := Some(Mismatch);
        return None;
      }
      if |f.password| < MinPasswordLength {
        error := Some(TooShort);
        return None;
      }
      isLoading := true;
      request := Some(RequestOf(f));
      if outcome.Threw? {
        error := Some(RegisterFailed(outcome.message));
      }
      isLoading := false;
    }
  }
}
