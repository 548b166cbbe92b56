/** The payment redirect page: it sends the `code` query parameter to the
    verification endpoint, shows a loading, a failure or a success view, lets
    the user re-check the status, and routes "Proceed" to the event that was
    paid for or to the event listing. */
module Payment {
  import opened Js

  const NoCodeMessage := "No payment code provided"
  const VerifyFailedMessage := "Failed to verify payment"
  /** Shown on the failure view when `error` is empty. */
  const DefaultFailureText :=
    "Unfortunately, your payment could not be processed. Please try again or contact support if the issue persists."

  /** Milliseconds before the result icon starts its animation. */
  const AnimationDelay := 100

  const EventListRoute := "/events?category=events"
  const EventRoutePrefix := "/events?id="

  /** The body `{ success, eventId, error }` the endpoint answers with. */
  datatype Response = Response(success: Value, eventId: Value, error: Option<string>)

  /** How `paymentService.verifyCode` settles: with a response body, or by
      throwing an error that may carry `response.data.error`. */
  datatype VerifyResult = Resolved(data: Response) | Thrown(error: Option<string>)

  /** What a settled call amounts to for the page. */
  datatype Settlement = Succeeded(eventId: Value) | Failed(message: string)

  datatype Effect =
    | VerifyCode(code: string)
    | ShowAnimationAfter(ms: nat)
    | Push(route: string)

  datatype View =
    | LoadingView
    | FailureView(message: string, refreshDisabled: bool)
    | SuccessView(refreshDisabled: bool)

  /** The message a failed call carries: the response's `error`, or the
      thrown error's `response.data.error`. */
  function ServerMessage(r: VerifyResult): Option<string>
  {
    match r
    case Resolved(data) => data.error
    case Thrown(error) => error
  }

  /** The try/catch of `verifyPayment`: a truthy `success` flag succeeds with
      the returned id; a falsy flag and a thrown error fail alike, with the
      server's message or "Failed to verify payment". */
  function Settle(r: VerifyResult): (s: Settlement)
    ensures s.Succeeded? <==> r.Resolved? && Truthy(r.data.success)
    ensures s.Succeeded? ==> s.eventId == r.data.eventId
    ensures s.Failed? ==> s.message == OrElse(ServerMessage(r), VerifyFailedMessage)
    ensures s.Failed? ==> s.message != ""
  {
    match r
    case Resolved(data) =>
      if Truthy(data.success) then Succeeded(data.eventId)
      else Failed(OrElse(data.error, VerifyFailedMessage))
    case Thrown(error) => Failed(OrElse(error, VerifyFailedMessage))
  }

  /** A declined response and a thrown error with the same message settle the
      page identically. */
  lemma DeclinedAndThrownAgree(success: Value, eventId: Value, message: Option<string>)
    requires !Truthy(success)
    ensures Settle(Resolved(Response(success, eventId, message))) == Settle(Thrown(message))
  {
  }

  /** `handleProceed`: the listing when the id is the string "-1" or falsy,
      the event's own page otherwise. */
  function ProceedRoute(eventId: Value): (route: string)
    ensures route == EventListRoute <==> eventId == Str("-1") || !Truthy(eventId)
    ensures route != EventListRoute ==> route == EventRoutePrefix + Text(eventId)
  {
    if eventId == Str("-1") || !Truthy(eventId) then EventListRoute
    else
      var route := EventRoutePrefix + Text(eventId);
      assert route[8] != EventListRoute[8];
      route
  }

  /** The `id` an events route carries, if it is of the form
      "/events?id=<id>". */
  function EventIdOf(route: string): Option<string>
  {
    if StartsWith(route, EventRoutePrefix) then Some(route[|EventRoutePrefix|..]) else None
  }

  /** Proceeding with a concrete string id leads to a route that names that
      id; proceeding without one leads to a route that names none. */
  lemma ProceedRouteNamesEvent(eventId: Value)
    ensures eventId.Str? && eventId.s != "" && eventId.s != "-1" ==>
      EventIdOf(ProceedRoute(eventId)) == Some(eventId.s)
    ensures eventId == Str("-1") || !Truthy(eventId) ==> EventIdOf(ProceedRoute(eventId)) == None
  {
    var route := ProceedRoute(eventId);
    if route == EventListRoute {
      assert route[..|EventRoutePrefix|] != EventRoutePrefix by {
        assert route[8] != EventRoutePrefix[8];
      }
    } else {
      assert route[..|EventRoutePrefix|] == EventRoutePrefix;
    }
  }

  /** Only the STRING "-1" stands for "no specific event": the comparison is
      strict, so a numeric -1 is routed to an event page. */
  lemma NumericMinusOneIsAnEventId()
    ensures ProceedRoute(Num(-1)) == "/events?id=-1"
  {
    assert Text(Num(-1)) == "-" + DecimalString(1);
  }

  /** The page component `PaymentPageContent`. `code` is read once from the
      query string; the other fields are its state hooks, and `effects`
      records the calls, timers and navigation it has issued. */
  class PaymentPage {
    const code: Option<string>
    var loading: bool
    var success: bool
    var eventId: Value
    var error: Option<string>
    var showAnimation: bool
    var isRefreshing: bool
    var effects: seq<Effect>

    /** Success is only reached with a code and clears the error; an error is
        never empty; once loading is over the page holds either a success or
        an error. */
    ghost predicate Valid()
      reads this
    {
      (success ==> error == None && Present(code)) &&
      (error.Some? ==> error.value != "") &&
      (!loading ==> success || error.Some?)
    }

    constructor (code: Option<string>)
      ensures Valid()
      ensures this.code == code
      ensures loading && !success && eventId == Null && error == None
      ensures !showAnimation && !isRefreshing && effects == []
    {
      this.code := code;
      loading := true;
      success := false;
      eventId := Null;
      error := None;
      showAnimation := false;
      isRefreshing := false;
      effects := [];
    }

    /** The loading view while loading; afterwards the failure view unless
        `success`. The refresh button is disabled while a refresh runs. On a
        valid page the failure view always shows the page's own error text. */
    function View(): (v: View)
      reads this
      ensures v.LoadingView? <==> loading
      ensures v.SuccessView? <==> !loading && success
      ensures v.FailureView? ==> v.message == OrElse(error, DefaultFailureText)
      ensures !v.LoadingView? ==> v.refreshDisabled == isRefreshing
      ensures Valid() && v.FailureView? ==> error.Some? && v.message == error.value
    {
      if loading then LoadingView
      else if !success then FailureView(OrElse(error, DefaultFailureText), isRefreshing)
      else SuccessView(isRefreshing)
    }

    /** `verifyPayment(isRefresh)` up to the awaited call. Without a code it
        settles at once with "No payment code provided" and calls nothing;
        with one, a refresh marks itself and keeps the displayed result. */
    method BeginVerify(isRefresh: bool) returns (calling: bool)
      requires Valid()
      modifies this
      ensures Valid()
      ensures calling <==> Present(code)
      ensures success == old(success) && eventId == old(eventId)
      ensures !calling ==>
        error == Some(NoCodeMessage) && !loading &&
        isRefreshing == old(isRefreshing) && showAnimation == old(showAnimation) &&
        effects == old(effects) + [ShowAnimationAfter(AnimationDelay)]
      ensures calling ==>
        error == old(error) && loading == old(loading) &&
        isRefreshing == (isRefresh || old(isRefreshing)) &&
        showAnimation == (!isRefresh && old(showAnimation)) &&
        effects == old(effects) + [VerifyCode(code.value)]
    {
      if !Present(code) {
        error := Some(NoCodeMessage);
        loading := false;
        effects := effects + [ShowAnimationAfter(AnimationDelay)];
        return false;
      }
      if isRefresh {
        isRefreshing := true;
        showAnimation := false;
      }
      effects := effects + [VerifyCode(code.value)];
      return true;
    }

    /** `verifyPayment` after the awaited call settles (the try, catch and
        finally blocks). Loading and refreshing are over whatever the
        outcome; a failure keeps the last event id. */
    method CompleteVerify(r: VerifyResult)
      requires Valid() && Present(code)
      modifies this
      ensures Valid()
      ensures !loading && !isRefreshing
      ensures Settle(r).Succeeded? ==>
        success && eventId == Settle(r).eventId && error == None
      ensures Settle(r).Failed? ==>
        !success && eventId == old(eventId) && error == Some(Settle(r).message)
      ensures showAnimation == old(showAnimation)
      ensures effects == old(effects) + [ShowAnimationAfter(AnimationDelay)]
      ensures View() == if Settle(r).Succeeded? then SuccessView(false) else FailureView(Settle(r).message, false)
    {
      match r {
        case Resolved(data) =>
          if Truthy(data.success) {
            success := true;
            eventId := data.eventId;
            error := None;
          } else {
            error := Some(OrElse(data.error, VerifyFailedMessage));
            success := false;
          }
        case Thrown(message) =>
          error := Some(OrElse(message, VerifyFailedMessage));
          success := false;
      }
      effects := effects + [ShowAnimationAfter(AnimationDelay)];
      loading := false;
      isRefreshing := false;
    }

    /** The mount effect: `verifyPayment(false)`. */
    method Mount() returns (calling: bool)
      requires Valid()
      modifies this
      ensures Valid()
      ensures calling <==> Present(code)
      ensures isRefreshing == old(isRefreshing) && showAnimation == old(showAnimation)
      ensures success == old(success) && eventId == old(eventId)
      ensures calling ==> error == old(error) && loading == old(loading)
      ensures !calling ==> error == Some(NoCodeMessage) && !loading
      ensures effects == old(effects) +
        if calling then [VerifyCode(code.value)] else [ShowAnimationAfter(AnimationDelay)]
    {
      calling := BeginVerify(false);
    }

    /** `handleRefreshStatus`: `verifyPayment(true)`; the displayed result
        stays until the new one arrives. */
    method HandleRefreshStatus() returns (calling: bool)
      requires Valid()
      modifies this
      ensures Valid()
      ensures calling <==> Present(code)
      ensures success == old(success) && eventId == old(eventId)
      ensures calling ==> isRefreshing && !showAnimation && error == old(error) && loading == old(loading)
      ensures !calling ==>
        error == Some(NoCodeMessage) && !loading &&
        isRefreshing == old(isRefreshing) && showAnimation == old(showAnimation)
      ensures effects == old(effects) +
        if calling then [VerifyCode(code.value)] else [ShowAnimationAfter(AnimationDelay)]
    {
      calling := BeginVerify(true);
    }

    /** The 100 ms timer that starts the result animation. */
    method AnimationTimerFires()
      modifies this`showAnimation
      ensures showAnimation
    {
      showAnimation := true;
    }

    /** `handleProceed`. */
    method HandleProceed()
      modifies this`effects
      ensures effects == old(effects) + [Push(ProceedRoute(eventId))]
    {
      effects := effects + [Push(ProceedRoute(eventId))];
    }
  }

  /** A `{ success: true, eventId: "42" }` answer shows the success view, and
      "Proceed" then goes to "/events?id=42". */
  method VerifiedThenProceed() returns (view: View, route: string)
    ensures view == SuccessView(false)
    ensures route == "/events?id=42"
  {
    var page := new PaymentPage(Some("c0de"));
    var calling := page.Mount();
    page.CompleteVerify(Resolved(Response(Bool(true), Str("42"), None)));
    view := page.View();
    page.HandleProceed();
    route := page.effects[|page.effects| - 1].route;
  }

  /** After a failure, a refresh can still end on the success view. */
  method RefreshAfterFailure(code: string, message: Option<string>, id: Value) returns (before: View, after: View)
    requires code != ""
    ensures before.FailureView? && after == SuccessView(false)
  {
    var page := new PaymentPage(Some(code));
    var calling := page.Mount();
    page.CompleteVerify(Thrown(message));
    before := page.View();
    calling := page.HandleRefreshStatus();
    page.CompleteVerify(Resolved(Response(Bool(true), id, None)));
    after := page.View();
  }
}
