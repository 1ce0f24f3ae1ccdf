/**
 * The registration page (frontend/src/pages/Register.jsx): the ordered checks of
 * `handleSubmit`, the call it then makes, and the page state it updates.
 */
module Register {
  import opened Common

  datatype RegisterForm = RegisterForm(name: string, email: string, password: string, confirmPassword: string)

  datatype RegisterField = NameField | EmailField | PasswordField | ConfirmPasswordField

  /** The arguments of `register(name, email, password)`: the confirmation is not among them. */
  datatype RegisterCall = RegisterCall(name: string, email: string, password: string)

  const MinPasswordLength := 6

  predicate AllFilled(f: RegisterForm)
  {
    f.name != "" && f.email != "" && f.password != "" && f.confirmPassword != ""
  }

  /** The checks in order; the first that fails gives the one message shown, and none means the form is valid. */
  function FirstError(f: RegisterForm): (e: Option<string>)
    ensures !AllFilled(f) ==> e == Some("Please fill in all fields")
    ensures AllFilled(f) && |f.password| < MinPasswordLength ==> e == Some("Password must be at least 6 characters")
    ensures AllFilled(f) && |f.password| >= MinPasswordLength && f.password != f.confirmPassword ==>
              e == Some("Passwords do not match")
    ensures e.None? <==> AllFilled(f) && |f.password| >= MinPasswordLength && f.password == f.confirmPassword
  {
    if !AllFilled(f) then Some("Please fill in all fields")
    else if |f.password| < MinPasswordLength then Some("Password must be at least 6 characters")
    else if f.password != f.confirmPassword then Some("Passwords do not match")
    else None
  }

  /** A mismatch is reported only for a form whose fields are all filled and whose password is long enough. */
  lemma MismatchReportedLast(f: RegisterForm)
    requires FirstError(f) == Some("Passwords do not match")
    ensures AllFilled(f) && |f.password| >= MinPasswordLength && f.password != f.confirmPassword
  {
  }

  function SetField(f: RegisterForm, field: RegisterField, value: string): RegisterForm
  {
    match field
    case NameField => f.(name := value)
    case EmailField => f.(email := value)
    case PasswordField => f.(password := value)
    case ConfirmPasswordField => f.(confirmPassword := value)
  }

  /** The registration page's component state. */
  class RegisterPage {
    var form: RegisterForm
    var isLoading: bool
    var formError: string

    constructor ()
      ensures form == RegisterForm("", "", "", "") && !isLoading && formError == ""
    {
      form := RegisterForm("", "", "", "");
      isLoading := false;
      formError := "";
    }

    /** `handleChange`: writes the named field and clears the form error. */
    method HandleChange(field: RegisterField, value: string)
      modifies this
      ensures form == SetField(old(form), field, value) && formError == "" && isLoading == old(isLoading)
    {
      form := SetField(form, field, value);
      formError := "";
    }

    /**
     * `handleSubmit`: `register` is called only for a valid form, with name, email and
     * password; the page goes to '/' only when that call reports success.
     */
    method HandleSubmit(registerSucceeds: bool) returns (call: Option<RegisterCall>, navigateTo: Option<string>)
      modifies this
      ensures form == old(form)
      ensures call.Some? <==> FirstError(form).None?
      ensures call.Some? ==> call.value == RegisterCall(form.name, form.email, form.password)
      ensures call.Some? ==> |call.value.password| >= MinPasswordLength && call.value.password == form.confirmPassword
      ensures formError == if FirstError(form).Some? then FirstError(form).value else ""
      ensures call.None? ==> isLoading == old(isLoading)
      ensures call.Some? ==> !isLoading
      ensures navigateTo == if call.Some? && registerSucceeds then Some("/") else None
    {
      formError := "";
      call, navigateTo := None, None;
      match FirstError(form)
      case Some(message) =>
        formError := message;
      case None =>
        isLoading := true;
        call := Some(RegisterCall(form.name, form.email, form.password));
        isLoading := false;
        if registerSucceeds {
          navigateTo := Some("/");
        }
    }
  }
}
