/** The reset-password form: it shows the address remembered by the
    forgot-password step, checks the two passwords (equality first, then a
    minimum length of 6), sends the token with the new password, and forgets
    the remembered address only when the reset succeeds. */
module ResetPassword {
  import opened Js
  import opened AuthStorage

  const MissingTokenMessage := "Invalid or missing reset token"
  const MismatchMessage := "Passwords do not match"
  const TooShortMessage := "Password must be at least 6 characters"
  const ResetFailedMessage := "Failed to reset password"

  const MinPasswordLength := 6

  datatype Effect =
    | ResetPasswordCall(token: Option<string>, newPassword: string)
    | RemoveItem(key: string)

  /** How `authService.resetPassword` settles; a rejection may carry the
      server's `response.data.message`. */
  datatype Outcome = Resolved | Rejected(message: Option<string>)

  datatype View =
    | SuccessView
    | FormView(errorBanner: Option<string>, email: string, submitDisabled: bool, submitLabel: string)

  /** The two guards of `handleSubmit`, in order: the message to show, or None
      when the passwords may be sent. A mismatch is reported even when the
      password is also too short. */
  function Validate(password: string, confirmPassword: string): (r: Option<string>)
    ensures r == None <==> password == confirmPassword && |password| >= MinPasswordLength
    ensures password != confirmPassword ==> r == Some(MismatchMessage)
    ensures password == confirmPassword && |password| < MinPasswordLength ==> r == Some(TooShortMessage)
  {
    if password != confirmPassword then Some(MismatchMessage)
    else if |password| < MinPasswordLength then Some(TooShortMessage)
    else None
  }

  /** The page component: `token` comes from the query string; the other
      fields are its state hooks, and `effects` records the service calls and
      storage removals it has issued. */
  class ResetPasswordPage {
    const token: Option<string>
    var email: string
    var password: string
    var confirmPassword: string
    var loading: bool
    var error: string
    var success: bool
    var effects: seq<Effect>

    constructor (token: Option<string>)
      ensures this.token == token
      ensures email == "" && password == "" && confirmPassword == ""
      ensures !loading && error == "" && !success && effects == []
    {
      this.token := token;
      email, password, confirmPassword := "", "", "";
      loading, error, success := false, "", false;
      effects := [];
    }

    /** The success view once the reset went through; otherwise the form, with
        the error banner when an error is set. Submitting is disabled while a
        request runs and whenever the token is missing. */
    function View(): (v: View)
      reads this
      ensures v.SuccessView? <==> success
      ensures v.FormView? ==> v.email == email
      ensures v.FormView? ==> (v.errorBanner.Some? <==> error != "")
      ensures v.FormView? && v.errorBanner.Some? ==> v.errorBanner.value == error
      ensures v.FormView? ==> (v.submitDisabled <==> loading || !Present(token))
      ensures v.FormView? ==> v.submitLabel == if loading then "Resetting..." else "Reset Password"
    {
      if success then SuccessView
      else FormView(
        if error != "" then Some(error) else None,
        email,
        loading || !Present(token),
        if loading then "Resetting..." else "Reset Password")
    }

    /** The mount effect, given what `localStorage.getItem` returned for the
        remembered address. */
    method Mount(storedEmail: Option<string>)
      modifies this`email, this`error
      ensures email == if Present(storedEmail) then storedEmail.value else old(email)
      ensures error == if Present(token) then old(error) else MissingTokenMessage
    {
      if Present(storedEmail) {
        email := storedEmail.value;
      }
      if !Present(token) {
        error := MissingTokenMessage;
      }
    }

    method SetPassword(value: string)
      modifies this`password
      ensures password == value
    {
      password := value;
    }

    method SetConfirmPassword(value: string)
      modifies this`confirmPassword
      ensures confirmPassword == value
    {
      confirmPassword := value;
    }

    /** `handleSubmit` up to the awaited call: the error is cleared, then the
        guards run; only passwords that pass them are sent, with the token. */
    method BeginSubmit() returns (calling: bool)
      modifies this`error, this`loading, this`effects
      ensures calling <==> Validate(password, confirmPassword) == None
      ensures !calling ==>
        error == Validate(password, confirmPassword).value &&
        loading == old(loading) && effects == old(effects)
      ensures calling ==>
        error == "" && loading &&
        effects == old(effects) + [ResetPasswordCall(token, password)]
      ensures calling ==> password == confirmPassword && |password| >= MinPasswordLength
    {
      error := "";
      var problem := Validate(password, confirmPassword);
      if problem.Some? {
        error := problem.value;
        return false;
      }
      loading := true;
      effects := effects + [ResetPasswordCall(token, password)];
      return true;
    }

    /** `handleSubmit` after the call settles: only a success forgets the
        remembered address and shows the success view; loading ends either
        way. */
    method CompleteSubmit(outcome: Outcome)
      modifies this`error, this`loading, this`success, this`effects
      ensures !loading
      ensures outcome.Resolved? ==>
        success && error == old(error) &&
        effects == old(effects) + [RemoveItem(ResetEmailKey)]
      ensures outcome.Rejected? ==>
        success == old(success) && error == OrElse(outcome.message, ResetFailedMessage) &&
        effects == old(effects)
    {
      match outcome {
        case Resolved =>
          effects := effects + [RemoveItem(ResetEmailKey)];
          success := true;
        case Rejected(message) =>
          error := OrElse(message, ResetFailedMessage);
      }
      loading := false;
    }
  }
}
