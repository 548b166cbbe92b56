/** The forgot-password form: it remembers the address for the reset step
    before it asks the server to send the reset link, so the address stays
    remembered even when the request fails. */
module ForgotPassword {
  import opened Js
  import opened AuthStorage

  const SendFailedMessage := "Failed to send reset email"

  datatype Effect =
    | SetItem(key: string, value: string)
    | ForgotPasswordCall(email: string)

  /** How `authService.forgotPassword` settles; a rejection may carry the
      server's `response.data.message`. */
  datatype Outcome = Resolved | Rejected(message: Option<string>)

  datatype View =
    | CheckEmailView(email: string)
    | FormView(errorBanner: Option<string>, submitDisabled: bool, submitLabel: string)

  /** The page component: its state hooks, and `effects` for the storage
      writes and service calls it has issued. */
  class ForgotPasswordPage {
    var email: string
    var loading: bool
    var error: string
    var success: bool
    var effects: seq<Effect>

    constructor ()
      ensures email == "" && !loading && error == "" && !success && effects == []
    {
      email, loading, error, success := "", false, "", false;
      effects := [];
    }

    /** "Check Email" with the address once the link was sent; otherwise the
        form, whose button is disabled while the request runs. */
    function View(): (v: View)
      reads this
      ensures v.CheckEmailView? <==> success
      ensures v.CheckEmailView? ==> v.email == email
      ensures v.FormView? ==> (v.errorBanner.Some? <==> error != "")
      ensures v.FormView? && v.errorBanner.Some? ==> v.errorBanner.value == error
      ensures v.FormView? ==> (v.submitDisabled <==> loading)
      ensures v.FormView? ==> v.submitLabel == if loading then "Sending..." else "Send Reset Link"
    {
      if success then CheckEmailView(email)
      else FormView(
        if error != "" then Some(error) else None,
        loading,
        if loading then "Sending..." else "Send Reset Link")
    }

    method SetEmail(value: string)
      modifies this`email
      ensures email == value
    {
      email := value;
    }

    /** `handleSubmit` up to the awaited call: clear the error, start loading,
        store the address, then call the service. */
    method BeginSubmit()
      modifies this`error, this`loading, this`effects
      ensures error == "" && loading
      ensures effects == old(effects) + [SetItem(ResetEmailKey, email), ForgotPasswordCall(email)]
    {
      error := "";
      loading := true;
      effects := effects + [SetItem(ResetEmailKey, email)];
      effects := effects + [ForgotPasswordCall(email)];
    }

    /** `handleSubmit` after the call settles: success only on resolution, the
        server's message (or a fallback) on rejection, loading over either way.
        Nothing is taken back from storage. */
    method CompleteSubmit(outcome: Outcome)
      modifies this`error, this`loading, this`success
      ensures !loading
      ensures outcome.Resolved? ==> success && error == old(error)
      ensures outcome.Rejected? ==>
        success == old(success) && error == OrElse(outcome.message, SendFailedMessage)
    {
      match outcome {
        case Resolved =>
          success := true;
        case Rejected(message) =>
          error := OrElse(message, SendFailedMessage);
      }
      loading := false;
    }
  }

  /** A failed request leaves the form with an error, the address stored, and
      the button enabled again. */
  method FailedRequestKeepsAddress(address: string, message: Option<string>)
    returns (effects: seq<Effect>, view: View)
    ensures SetItem(ResetEmailKey, address) in effects
    ensures view == FormView(Some(OrElse(message, SendFailedMessage)), false, "Send Reset Link")
  {
    var page := new ForgotPasswordPage();
    page.SetEmail(address);
    page.BeginSubmit();
    page.CompleteSubmit(Rejected(message));
    effects, view := page.effects, page.View();
  }
}
