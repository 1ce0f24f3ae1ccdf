/**
 * The sign-in page (frontend/src/pages/Login.jsx): the empty-field check, the redirect
 * target taken from the route state, and the outcome of `handleSubmit`.
 */
module Login {
  import opened Common

  datatype LoginForm = LoginForm(email: string, password: string)

  datatype LoginField = EmailField | PasswordField

  /** `location.state`: where the route guard came from, if it said. */
  datatype FromLocation = FromLocation(pathname: Option<string>)
  datatype RouteState = RouteState(from: Option<FromLocation>)

  /** What `login` reports. */
  datatype LoginResult = LoginOk | LoginFailed(message: Option<string>)

  /** `location.state?.from?.pathname || '/'`. */
  function RedirectTarget(state: Option<RouteState>): (target: string)
    ensures target != ""
    ensures (state.Some? && state.value.from.Some? && Truthy(state.value.from.value.pathname)) ==>
              target == state.value.from.value.pathname.value
    ensures !(state.Some? && state.value.from.Some? && Truthy(state.value.from.value.pathname)) ==> target == "/"
  {
    if state.Some? && state.value.from.Some? && Truthy(state.value.from.value.pathname)
    then state.value.from.value.pathname.value
    else "/"
  }

  /** The only check before calling `login`. */
  function FieldsError(f: LoginForm): (e: Option<string>)
    ensures e.None? <==> f.email != "" && f.password != ""
    ensures e.Some? ==> e.value == "Please fill in all fields"
  {
    if f.email == "" || f.password == "" then Some("Please fill in all fields") else None
  }

  /** `result.message || 'Invalid credentials'`. */
  function FailureMessage(message: Option<string>): (text: string)
    ensures text != ""
    ensures Truthy(message) ==> text == message.value
    ensures !Truthy(message) ==> text == "Invalid credentials"
  {
    if Truthy(message) then message.value else "Invalid credentials"
  }

  function SetField(f: LoginForm, field: LoginField, value: string): LoginForm
  {
    match field
    case EmailField => f.(email := value)
    case PasswordField => f.(password := value)
  }

  /** The sign-in page's component state. */
  class LoginPage {
    var form: LoginForm
    var isLoading: bool
    var toast: Option<Toast>

    constructor ()
      ensures form == LoginForm("", "") && !isLoading && toast == None
    {
      form := LoginForm("", "");
      isLoading := false;
      toast := None;
    }

    /** `handleChange`: writes the named field; nothing else on this page changes. */
    method HandleChange(field: LoginField, value: string)
      modifies this
      ensures form == SetField(old(form), field, value)
      ensures isLoading == old(isLoading) && toast == old(toast)
    {
      form := SetField(form, field, value);
    }

    /**
     * `handleSubmit`: an empty field is reported and `login` is not called; otherwise
     * success goes to the redirect target and failure shows the server's message or the fallback.
     */
    method HandleSubmit(state: Option<RouteState>, result: LoginResult)
      returns (call: Option<LoginForm>, navigateTo: Option<string>)
      modifies this
      ensures form == old(form)
      ensures call.Some? <==> FieldsError(form).None?
      ensures call.Some? ==> call.value == form && !isLoading
      ensures call.None? ==>
                toast == Some(Toast("Please fill in all fields", Error)) && isLoading == old(isLoading) && navigateTo.None?
      ensures call.Some? && result.LoginOk? ==> navigateTo == Some(RedirectTarget(state)) && toast == old(toast)
      ensures call.Some? && result.LoginFailed? ==>
                navigateTo.None? && toast == Some(Toast(FailureMessage(result.message), Error))
    {
      call, navigateTo := None, None;
      match FieldsError(form)
      case Some(message) =>
        toast := Some(Toast(message, Error));
      case None =>
        isLoading := true;
        call := Some(form);
        isLoading := false;
        match result
        case LoginOk =>
          navigateTo := Some(RedirectTarget(state));
        case LoginFailed(message) =>
          toast := Some(Toast(FailureMessage(message), Error));
    }
  }
}
