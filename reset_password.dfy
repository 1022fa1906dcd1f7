/** The reset-password page: it checks the link's token with the backend,
    then takes a new password twice and submits it. */
module ResetPassword {
  import opened Http

  const InvalidLinkMessage := "Invalid reset link. Please request a new password reset."
  const InvalidTokenMessage := "Invalid or expired reset token"
  const NetworkMessage := "Network error. Please try again later."
  const PasswordRequired := "New password is required"
  const PasswordTooShort := "Password must be at least 6 characters long"
  const PasswordsDiffer := "Passwords do not match"
  const ResetFailedMessage := "Failed to reset password"

  /** The smallest password the form accepts. */
  const MinPasswordLength := 6

  /** Who the link belongs to, as the token check reports it. */
  datatype UserInfo = UserInfo(email: string, name: string)

  /** The token check's JSON: the user on success, `error` on failure. */
  datatype VerifyBody = VerifyBody(email: string, name: string, error: string)

  /** The reset endpoint's JSON: `message` on success, `error` on failure. */
  datatype ResetBody = ResetBody(message: string, error: string)

  /** The checks of `handleSubmit`, in order; the first that fails gives the
      message. */
  function PasswordError(newPassword: string, confirmPassword: string): (e: Option<string>)
    ensures newPassword == "" ==> e == Some(PasswordRequired)
    ensures newPassword != "" && |newPassword| < MinPasswordLength ==> e == Some(PasswordTooShort)
    ensures |newPassword| >= MinPasswordLength && newPassword != confirmPassword ==> e == Some(PasswordsDiffer)
    ensures e.None? <==> |newPassword| >= MinPasswordLength && newPassword == confirmPassword
  {
    if newPassword == "" then Some(PasswordRequired)
    else if |newPassword| < MinPasswordLength then Some(PasswordTooShort)
    else if newPassword != confirmPassword then Some(PasswordsDiffer)
    else None
  }

  /** The submit button is disabled while loading or while either field is
      empty; it does not check length or agreement. */
  function SubmitDisabled(loading: bool, newPassword: string, confirmPassword: string): (disabled: bool)
    ensures !disabled <==> !loading && newPassword != "" && confirmPassword != ""
  {
    loading || newPassword == "" || confirmPassword == ""
  }

  /** The button lets through every submission the checks accept, and the
      only check it performs itself is the first. */
  lemma ButtonAdmitsValidPasswords(newPassword: string, confirmPassword: string)
    ensures PasswordError(newPassword, confirmPassword).None? ==> !SubmitDisabled(false, newPassword, confirmPassword)
    ensures SubmitDisabled(false, newPassword, confirmPassword) && confirmPassword != "" ==>
      PasswordError(newPassword, confirmPassword) == Some(PasswordRequired)
  {
  }

  /** What the page renders. */
  datatype Screen = Verifying | InvalidLink | ResetForm(formShown: bool)

  /** The spinner while the token is checked; the invalid-link screen when an
      error is set and no user was found; otherwise the card, whose form is
      hidden once a success message is set. */
  function ScreenFor(verifying: bool, error: string, userInfo: Option<UserInfo>, success: string): (s: Screen)
    ensures s == Verifying <==> verifying
    ensures s == InvalidLink <==> !verifying && error != "" && userInfo.None?
    ensures s.ResetForm? ==> (s.formShown <==> success == "")
  {
    if verifying then Verifying
    else if error != "" && userInfo.None? then InvalidLink
    else ResetForm(success == "")
  }

  /** The error a token check leaves when it finds no user ("" when it does). */
  function VerifyError(reply: Reply<VerifyBody>): (e: string)
    ensures reply.Responded? && reply.ok ==> e == ""
    ensures reply.Responded? && !reply.ok ==> e == Or(reply.body.error, InvalidTokenMessage) && e != ""
    ensures reply.Threw? ==> e == NetworkMessage
  {
    match reply
    case Threw => NetworkMessage
    case Responded(ok, _, body) => if ok then "" else Or(body.error, InvalidTokenMessage)
  }

  /** Every state cell of the page. */
  datatype ResetState = ResetState(
    token: string, newPassword: string, confirmPassword: string,
    showPassword: bool, showConfirmPassword: bool, loading: bool, verifying: bool,
    error: string, success: string, userInfo: Option<UserInfo>)

  /** The page on first render: verifying, everything else empty. */
  const Initial := ResetState("", "", "", false, false, false, true, "", "", None)

  class ResetPasswordPage {
    var token: string
    var newPassword: string
    var confirmPassword: string
    var showPassword: bool
    var showConfirmPassword: bool
    var loading: bool
    var verifying: bool
    var error: string
    var success: string
    var userInfo: Option<UserInfo>

    function State(): ResetState
      reads this
    {
      ResetState(token, newPassword, confirmPassword, showPassword, showConfirmPassword,
                 loading, verifying, error, success, userInfo)
    }

    constructor ()
      ensures State() == Initial
    {
      token, newPassword, confirmPassword := "", "", "";
      showPassword, showConfirmPassword, loading, verifying := false, false, false, true;
      error, success, userInfo := "", "", None;
    }

    /** The effect on mount: `tokenParam` is the link's `token` query
        parameter (None when absent; an empty one counts as absent), and
        `reply` answers the token check when one is made. `checked` is the
        token sent for checking. */
    method Mount(tokenParam: Option<string>, reply: Reply<VerifyBody>) returns (checked: Option<string>)
      modifies this
      ensures !verifying
      ensures checked.Some? <==> tokenParam.Some? && tokenParam.value != ""
      ensures checked.None? ==> State() == old(State()).(verifying := false, error := InvalidLinkMessage)
      ensures checked.Some? ==> checked.value == tokenParam.value && token == tokenParam.value
      ensures checked.Some? && reply.Responded? && reply.ok ==>
        State() == old(State()).(token := tokenParam.value, verifying := false,
                                 userInfo := Some(UserInfo(reply.body.email, reply.body.name)))
      ensures checked.Some? && !(reply.Responded? && reply.ok) ==>
        State() == old(State()).(token := tokenParam.value, verifying := false, error := VerifyError(reply))
    {
      if tokenParam.Some? && tokenParam.value != "" {
        token := tokenParam.value;
        checked := Some(tokenParam.value);
        VerifyToken(reply);
      } else {
        checked := None;
        error := InvalidLinkMessage;
        verifying := false;
      }
    }

    /** `verifyToken`: the user on OK, an error otherwise; the check is over
        on every path. */
    method VerifyToken(reply: Reply<VerifyBody>)
      modifies this
      ensures reply.Responded? && reply.ok ==>
        State() == old(State()).(verifying := false, userInfo := Some(UserInfo(reply.body.email, reply.body.name)))
      ensures !(reply.Responded? && reply.ok) ==>
        State() == old(State()).(verifying := false, error := VerifyError(reply))
    {
      match reply {
        case Responded(ok, _, data) =>
          if ok {
            userInfo := Some(UserInfo(data.email, data.name));
          } else {
            error := Or(data.error, InvalidTokenMessage);
          }
        case Threw =>
          error := NetworkMessage;
      }
      verifying := false;
    }

    /** Typing in either field clears the error. */
    method SetNewPassword(value: string)
      modifies this
      ensures State() == old(State()).(newPassword := value, error := "")
    {
      newPassword := value;
      error := "";
    }

    method SetConfirmPassword(value: string)
      modifies this
      ensures State() == old(State()).(confirmPassword := value, error := "")
    {
      confirmPassword := value;
      error := "";
    }

    method ToggleShowPassword()
      modifies this
      ensures State() == old(State()).(showPassword := !old(showPassword))
    {
      showPassword := !showPassword;
    }

    method ToggleShowConfirmPassword()
      modifies this
      ensures State() == old(State()).(showConfirmPassword := !old(showConfirmPassword))
    {
      showConfirmPassword := !showConfirmPassword;
    }

    /** The error alert's close button. */
    method DismissError()
      modifies this
      ensures State() == old(State()).(error := "")
    {
      error := "";
    }

    /** `handleSubmit`: `sent` is the token and new password when a request
        is made; `toLoginLater` says whether the redirect to the login page is
        scheduled. */
    method HandleSubmit(reply: Reply<ResetBody>) returns (sent: Option<(string, string)>, toLoginLater: bool)
      modifies this
      ensures PasswordError(old(newPassword), old(confirmPassword)).Some? ==>
        sent.None? && !toLoginLater
        && State() == old(State()).(error := PasswordError(old(newPassword), old(confirmPassword)).value)
      ensures PasswordError(old(newPassword), old(confirmPassword)).None? ==>
        sent == Some((old(token), old(newPassword)))
      ensures toLoginLater <==> PasswordError(old(newPassword), old(confirmPassword)).None? && reply.Responded? && reply.ok
      ensures toLoginLater ==> State() == old(State()).(error := "", success := reply.body.message, loading := false)
      ensures PasswordError(old(newPassword), old(confirmPassword)).None? && reply.Responded? && !reply.ok ==>
        State() == old(State()).(error := Or(reply.body.error, ResetFailedMessage), success := "", loading := false)
      ensures PasswordError(old(newPassword), old(confirmPassword)).None? && reply.Threw? ==>
        State() == old(State()).(error := NetworkMessage, success := "", loading := false)
    {
      var e := PasswordError(newPassword, confirmPassword);
      if e.Some? {
        error := e.value;
        return None, false;
      }
      loading := true;
      error := "";
      success := "";
      sent := Some((token, newPassword));
      toLoginLater := false;
      match reply {
        case Responded(ok, _, data) =>
          if ok {
            success := data.message;
            toLoginLater := true;
          } else {
            error := Or(data.error, ResetFailedMessage);
          }
        case Threw =>
          error := NetworkMessage;
      }
      loading := false;
    }
  }

  /** A link without a token ends on the invalid-link screen without any
      request being made. */
  lemma MissingTokenShowsInvalidLink()
    ensures ScreenFor(false, InvalidLinkMessage, None, "") == InvalidLink
  {
  }

  /** A token check that finds no user ends on the invalid-link screen, and
      one that finds a user ends on the form, whatever error is set later:
      once a user is known, submission errors show above the form. */
  lemma VerifyOutcomeScreen(reply: Reply<VerifyBody>, later: string, success: string)
    ensures !(reply.Responded? && reply.ok) ==> ScreenFor(false, VerifyError(reply), None, success) == InvalidLink
    ensures reply.Responded? && reply.ok ==>
      ScreenFor(false, later, Some(UserInfo(reply.body.email, reply.body.name)), success) == ResetForm(success == "")
  {
  }

  /** A successful reset hides the form exactly when the backend's message
      is non-empty. */
  lemma SuccessHidesForm(info: UserInfo, error: string, message: string)
    ensures ScreenFor(false, error, Some(info), message).formShown <==> message == ""
  {
  }
}
