/** The login page: its own `error`, the submit handler that prechecks the
    credentials before handing them to the session store, and what it shows. */
module LoginPage {
  import opened Http
  import opened Text
  import opened AuthContext

  const MissingCredentialsMessage := "Please enter both email and password"

  /** The precheck: the message to show, or "" when both fields have
      something other than whitespace in them. */
  function PrecheckError(email: string, password: string): (message: string)
    ensures message != "" <==> AllWhitespace(email) || AllWhitespace(password)
    ensures message != "" ==> message == MissingCredentialsMessage
  {
    BlankIffAllWhitespace(email);
    BlankIffAllWhitespace(password);
    if IsBlank(email) || IsBlank(password) then MissingCredentialsMessage else ""
  }

  /** The alert: the page's own error first, else the session's, else none. */
  function Alert(error: string, authError: Option<string>): (shown: Option<string>)
    ensures error != "" ==> shown == Some(error)
    ensures error == "" && authError.Some? && authError.value != "" ==> shown == authError
    ensures shown.None? <==> error == "" && (authError.None? || authError.value == "")
  {
    if error != "" then Some(error)
    else if authError.Some? && authError.value != "" then authError
    else None
  }

  /** The submit button: disabled, and relabelled, exactly while the session is loading. */
  datatype SubmitButton = SubmitButton(disabled: bool, caption: string)

  function Submit(loading: bool): (b: SubmitButton)
    ensures b.disabled <==> loading
  {
    if loading then SubmitButton(true, "Logging in...") else SubmitButton(false, "Login")
  }

  class LoginForm {
    var email: string
    var password: string
    var error: string

    constructor ()
      ensures email == "" && password == "" && error == ""
    {
      email, password, error := "", "", "";
    }

    method SetEmail(value: string)
      modifies this
      ensures email == value && password == old(password) && error == old(error)
    {
      email := value;
    }

    method SetPassword(value: string)
      modifies this
      ensures password == value && email == old(email) && error == old(error)
    {
      password := value;
    }

    /** `handleSubmit`. `reply` is the server's answer to the login request when
        one is made. The result is where the page navigates, if anywhere. */
    method HandleSubmit(auth: AuthProvider, reply: Reply<LoginBody>) returns (navigateTo: Option<string>)
      modifies this, auth
      ensures email == old(email) && password == old(password)
      ensures error == PrecheckError(email, password)
      ensures error != "" ==> auth.State() == old(auth.State()) && navigateTo == None
      ensures error == "" ==>
        && auth.State() == AfterLogin(old(auth.State()), reply)
        && (navigateTo.Some? <==> LoginAccepted(reply))
        && (navigateTo.Some? ==> navigateTo.value == "/dashboard")
    {
      error := "";
      if IsBlank(email) || IsBlank(password) {
        error := MissingCredentialsMessage;
        return None;
      }
      var success := auth.Login(reply);
      navigateTo := if success then Some("/dashboard") else None;
    }
  }

  /** After a submission that passed the precheck and was refused, the alert
      shows the session's failure message; after a precheck failure it shows
      the precheck message whatever the session says. */
  lemma AlertAfterSubmit(email: string, password: string, s: Session, reply: Reply<LoginBody>)
    ensures PrecheckError(email, password) != "" ==>
      Alert(PrecheckError(email, password), s.error) == Some(MissingCredentialsMessage)
    ensures PrecheckError(email, password) == "" && !LoginAccepted(reply) ==>
      Alert("", AfterLogin(s, reply).error) == Some(LoginFailure(reply))
  {
  }
}
