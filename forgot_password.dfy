/** The forgot-password page: one field, a submit handler and two messages. */
module ForgotPassword {
  import opened Http

  const EmailRequiredMessage := "Email is required"
  const SendFailedMessage := "Failed to send password reset email"
  const NetworkMessage := "Network error. Please try again later."

  /** The endpoint's JSON: `message` on success, `error` on failure. */
  datatype ForgotBody = ForgotBody(message: string, error: string)

  /** The error a request leaves behind ("" for none). */
  function RequestError(reply: Reply<ForgotBody>): (e: string)
    ensures reply.Responded? && reply.ok ==> e == ""
    ensures reply.Responded? && !reply.ok ==> e == Or(reply.body.error, SendFailedMessage) && e != ""
    ensures reply.Threw? ==> e == NetworkMessage
  {
    match reply
    case Threw => NetworkMessage
    case Responded(ok, _, body) => if ok then "" else Or(body.error, SendFailedMessage)
  }

  /** The submit button is disabled while loading or while the field is empty. */
  function SubmitDisabled(loading: bool, email: string): (disabled: bool)
    ensures !disabled <==> !loading && email != ""
  {
    loading || email == ""
  }

  class ForgotPasswordPage {
    var email: string
    var loading: bool
    var error: string
    var success: string

    constructor ()
      ensures email == "" && !loading && error == "" && success == ""
    {
      email, loading, error, success := "", false, "", "";
    }

    /** Typing an email clears the error. */
    method SetEmail(value: string)
      modifies this
      ensures email == value && error == "" && loading == old(loading) && success == old(success)
    {
      email := value;
      error := "";
    }

    /** The error alert's close button. */
    method DismissError()
      modifies this
      ensures error == "" && email == old(email) && loading == old(loading) && success == old(success)
    {
      error := "";
    }

    /** `handleSubmit`; `reply` answers the request when one is made. */
    method HandleSubmit(reply: Reply<ForgotBody>)
      modifies this
      ensures old(email) == "" ==>
        error == EmailRequiredMessage && email == old(email)
        && loading == old(loading) && success == old(success)
      ensures old(email) != "" ==>
        && !loading
        && error == RequestError(reply)
        && success == (if reply.Responded? && reply.ok then reply.body.message else "")
        && email == (if reply.Responded? && reply.ok then "" else old(email))
    {
      if email == "" {
        error := EmailRequiredMessage;
        return;
      }
      loading := true;
      error := "";
      success := "";
      match reply {
        case Responded(ok, _, data) =>
          if ok {
            success := data.message;
            email := "";
          } else {
            error := Or(data.error, SendFailedMessage);
          }
        case Threw =>
          error := NetworkMessage;
      }
      loading := false;
    }
  }
}
