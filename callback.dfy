/** The Google OAuth callback page: it reads `email`, `googleId`,
    `existing_user` and `source` from the query string once, and either
    reports an error, blocks an address that is registered with a password,
    logs an existing Google user in, or hands a new user over to the
    registration-completion step. */
module Callback {
  import opened Js

  const InvalidParamsMessage := "Invalid callback parameters"
  const EmailConflictMessage :=
    "This email is already registered with email/password. Please login with your email and password instead."
  const AuthFailedMessage := "Authentication failed"

  const LoginRoute := "/auth?type=login"
  const ProfileRoute := "/portal/profile"
  const CompleteRegistrationRoute := "/auth?type=complete-registration&source=google"

  /** Milliseconds before an email/password conflict is sent to the login page. */
  const ConflictRedirectDelay := 10000

  const RegistrationEmailKey := "registration_email"
  const RegistrationGoogleIdKey := "registration_googleId"

  /** The query parameters, as `searchParams.get` returns them. */
  datatype Params = Params(
    email: Option<string>,
    googleId: Option<string>,
    existingUser: Option<string>,
    source: Option<string>)

  /** How the `googleLogin` call settles; a rejection may carry the server's
      `response.data.message`. */
  datatype LoginOutcome = Resolved | Rejected(message: Option<string>)

  /** What the page asks of the outside world, in order. */
  datatype Effect =
    | GoogleLogin(email: string, googleId: string, existingUser: bool)
    | Push(route: string)
    | PushAfter(ms: nat, route: string)
    | SetItem(key: string, value: string)

  datatype Branch = InvalidParams | EmailConflict | ExistingGoogleUser | NewUser

  datatype Screen = ErrorScreen(message: string) | ProcessingScreen

  /** The four-way decision of the callback. The user counts as existing only
      when `existing_user` is exactly the string "true". */
  function Classify(p: Params): (b: Branch)
    ensures b == InvalidParams <==> !Present(p.email) || !Present(p.googleId)
    ensures b == EmailConflict <==>
      Present(p.email) && Present(p.googleId) &&
      p.existingUser == Some("true") && p.source == Some("email")
    ensures b == ExistingGoogleUser <==>
      Present(p.email) && Present(p.googleId) &&
      p.existingUser == Some("true") && p.source != Some("email")
    ensures b == NewUser <==>
      Present(p.email) && Present(p.googleId) && p.existingUser != Some("true")
  {
    if !Present(p.email) || !Present(p.googleId) then InvalidParams
    else
      var existingUser := p.existingUser == Some("true");
      if existingUser && p.source == Some("email") then EmailConflict
      else if existingUser then ExistingGoogleUser
      else NewUser
  }

  /** The page component: `error` and `loading` are its state hooks, and
      `effects` records the navigation, storage writes, timers and service
      calls it has issued. */
  class CallbackPage {
    var error: string
    var loading: bool
    var effects: seq<Effect>

    /** The spinner runs exactly as long as no error has been set. */
    ghost predicate Valid()
      reads this
    {
      loading <==> error == ""
    }

    constructor ()
      ensures Valid()
      ensures error == "" && loading && effects == []
    {
      error := "";
      loading := true;
      effects := [];
    }

    /** The error screen shows exactly when an error is set, that is, once
        loading has stopped. */
    function View(): (v: Screen)
      reads this
      ensures v.ErrorScreen? <==> error != ""
      ensures v.ErrorScreen? ==> v.message == error
      ensures Valid() ==> (v.ErrorScreen? <==> !loading)
    {
      if error != "" then ErrorScreen(error) else ProcessingScreen
    }

    /** `handleCallback`, with the settlement of `googleLogin` given. */
    method HandleCallback(p: Params, login: LoginOutcome)
      requires Valid()
      modifies this
      ensures Valid()
      ensures Classify(p) == InvalidParams ==>
        error == InvalidParamsMessage && !loading && effects == old(effects)
      ensures Classify(p) == EmailConflict ==>
        error == EmailConflictMessage && !loading &&
        effects == old(effects) + [PushAfter(ConflictRedirectDelay, LoginRoute)]
      ensures Classify(p) == ExistingGoogleUser && login.Resolved? ==>
        error == old(error) && loading == old(loading) &&
        effects == old(effects) + [GoogleLogin(p.email.value, p.googleId.value, true), Push(ProfileRoute)]
      ensures Classify(p) == ExistingGoogleUser && login.Rejected? ==>
        error == OrElse(login.message, AuthFailedMessage) && !loading &&
        effects == old(effects) + [GoogleLogin(p.email.value, p.googleId.value, true)]
      ensures Classify(p) == NewUser ==>
        error == old(error) && loading == old(loading) &&
        effects == old(effects) + [
          SetItem(RegistrationEmailKey, p.email.value),
          SetItem(RegistrationGoogleIdKey, p.googleId.value),
          Push(CompleteRegistrationRoute)]
    {
      if !Present(p.email) || !Present(p.googleId) {
        error := InvalidParamsMessage;
        loading := false;
        return;
      }
      var email, googleId := p.email.value, p.googleId.value;
      var existingUser := p.existingUser == Some("true");

      if existingUser && p.source == Some("email") {
        error := EmailConflictMessage;
        loading := false;
        effects := effects + [PushAfter(ConflictRedirectDelay, LoginRoute)];
        return;
      }

      if existingUser {
        effects := effects + [GoogleLogin(email, googleId, true)];
        match login
        case Resolved =>
          effects := effects + [Push(ProfileRoute)];
        case Rejected(message) =>
          error := OrElse(message, AuthFailedMessage);
          loading := false;
      } else {
        effects := effects + [
          SetItem(RegistrationEmailKey, email),
          SetItem(RegistrationGoogleIdKey, googleId),
          Push(CompleteRegistrationRoute)];
      }
    }
  }

  /** A fresh page: parameters without an email or a Google id never lead to a
      navigation, a storage write or a login call. */
  method InvalidCallbackNeverNavigates(p: Params, login: LoginOutcome) returns (effects: seq<Effect>, view: Screen)
    requires !Present(p.email) || !Present(p.googleId)
    ensures effects == []
    ensures view == ErrorScreen(InvalidParamsMessage)
  {
    var page := new CallbackPage();
    page.HandleCallback(p, login);
    effects, view := page.effects, page.View();
  }
}
