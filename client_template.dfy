/** The client page template: an entry overlay whose "Enter" popup appears
    after one animation time; pressing Enter fades the popup and, after one
    animation time plus one stagger, reveals the site. Content pages (news,
    music, charity, about) are wrapped in the `App` frame. */
module ClientTemplate {
  import opened Js

  /** Path prefixes of the pages that are wrapped in `App`. */
  const ContentPrefixes := ["/news", "/music", "/charity", "/about"]

  /** `theme.animation.time` and `theme.animation.stagger` fall back to
      these when falsy. */
  const DefaultAnimationTime := 250
  const DefaultStagger := 50

  datatype Effect =
    | ScheduleEnterShow(ms: int)
    | ClearEnterShowTimer
    | ScheduleShow(ms: int)

  /** What the template renders around its children. */
  datatype Rendered = Rendered(wrapInApp: bool, overlay: bool, popup: bool, popupShown: bool)

  /** `prefixes.find(path => pathname.startsWith(path))`: the first prefix of
      the list that starts the pathname. */
  function FindPrefix(prefixes: seq<string>, pathname: string): (r: Option<string>)
    ensures r.None? <==> forall i :: 0 <= i < |prefixes| ==> !StartsWith(pathname, prefixes[i])
    ensures r.Some? ==> r.value in prefixes && StartsWith(pathname, r.value)
    ensures r.Some? ==>
      (exists k :: 0 <= k < |prefixes| && prefixes[k] == r.value && StartsWith(pathname, prefixes[k]) &&
         forall j :: 0 <= j < k ==> !StartsWith(pathname, prefixes[j]))
  {
    if prefixes == [] then None
    else if StartsWith(pathname, prefixes[0]) then Some(prefixes[0])
    else FindPrefix(prefixes[1..], pathname)
  }

  /** `isURLContent`, as a truth value: the pathname starts with one of the
      content prefixes. It is a plain string prefix test, not a test on path
      segments. */
  function IsURLContent(pathname: string): (b: bool)
    ensures b <==> StartsWith(pathname, "/news") || StartsWith(pathname, "/music") ||
                   StartsWith(pathname, "/charity") || StartsWith(pathname, "/about")
  {
    var found := FindPrefix(ContentPrefixes, pathname);
    assert found.None? ==> !StartsWith(pathname, ContentPrefixes[0]) && !StartsWith(pathname, ContentPrefixes[1]) &&
                           !StartsWith(pathname, ContentPrefixes[2]) && !StartsWith(pathname, ContentPrefixes[3]);
    found.Some? && found.value != ""
  }

  /** "/newsletter" counts as a content page; "/new" does not. */
  lemma PrefixNotSegment()
    ensures IsURLContent("/newsletter")
    ensures !IsURLContent("/new")
  {
    assert "/newsletter"[..5] == "/news";
  }

  /** `theme.animation.time || 250`: when the popup appears. */
  function EnterShowDelay(animationTime: Option<int>): (ms: int)
    ensures animationTime.Some? && animationTime.value != 0 ==> ms == animationTime.value
    ensures animationTime.None? || animationTime.value == 0 ==> ms == DefaultAnimationTime
  {
    if animationTime.Some? && animationTime.value != 0 then animationTime.value else DefaultAnimationTime
  }

  /** `(time || 250) + (stagger || 50)`: how long after Enter the site shows. */
  function ShowDelay(animationTime: Option<int>, stagger: Option<int>): (ms: int)
    ensures ms == EnterShowDelay(animationTime) +
      (if stagger.Some? && stagger.value != 0 then stagger.value else DefaultStagger)
    ensures animationTime.None? && stagger.None? ==> ms == 300
  {
    EnterShowDelay(animationTime) + if stagger.Some? && stagger.value != 0 then stagger.value else DefaultStagger
  }

  /** The template's state flags and the timers it has pending. */
  datatype State = State(
    show: bool,
    enterShow: bool,
    enterAnimationShow: bool,
    enterTimerPending: bool,
    showTimersPending: nat)

  /** What can happen to a mounted template. */
  datatype Event = EnterTimerFires | Enter | ShowTimerFires | Cleanup

  /** The state right after mount. */
  function Initial(): State
  {
    State(false, false, true, true, 0)
  }

  /** One event; a timer that is not pending cannot fire. */
  function Step(s: State, e: Event): (t: State)
    ensures e == Enter ==> !t.enterAnimationShow && t.showTimersPending == s.showTimersPending + 1
    ensures e == EnterTimerFires && s.enterTimerPending ==> t.enterShow && !t.enterTimerPending
    ensures e == ShowTimerFires && s.showTimersPending > 0 ==>
      t.show && t.showTimersPending == s.showTimersPending - 1
    ensures e == Cleanup ==> !t.enterTimerPending
    ensures e != Enter ==> t.enterAnimationShow == s.enterAnimationShow
  {
    match e
    case EnterTimerFires =>
      if s.enterTimerPending then s.(enterShow := true, enterTimerPending := false) else s
    case Enter =>
      s.(enterAnimationShow := false, showTimersPending := s.showTimersPending + 1)
    case ShowTimerFires =>
      if s.showTimersPending > 0 then s.(show := true, showTimersPending := s.showTimersPending - 1) else s
    case Cleanup =>
      s.(enterTimerPending := false)
  }

  /** The events, in order. */
  function Replay(s: State, events: seq<Event>): State
    decreases |events|
  {
    if events == [] then s else Replay(Step(s, events[0]), events[1..])
  }

  /** `b` is `a` with flags moved only in their one direction. */
  predicate Advanced(a: State, b: State)
  {
    (a.show ==> b.show) && (a.enterShow ==> b.enterShow) &&
    (!a.enterAnimationShow ==> !b.enterAnimationShow)
  }

  /** The flags only move one way, in any order of events. */
  lemma {:induction false} ReplayOnlyAdvances(s: State, events: seq<Event>)
    ensures Advanced(s, Replay(s, events))
    decreases |events|
  {
    if events != [] {
      ReplayOnlyAdvances(Step(s, events[0]), events[1..]);
    }
  }

  /** The site is never shown, nor about to be, unless Enter was pressed. */
  lemma {:induction false} ShownOnlyAfterEnter(s: State, events: seq<Event>)
    ensures var t := Replay(s, events);
      (t.show || t.showTimersPending > 0) ==> (s.show || s.showTimersPending > 0 || Enter in events)
    decreases |events|
  {
    if events != [] {
      ShownOnlyAfterEnter(Step(s, events[0]), events[1..]);
      assert events == [events[0]] + events[1..];
    }
  }

  /** The template component: its state hooks, the timers it has pending,
      and `effects` for the timers it has set or cleared. */
  class Template {
    const animationTime: Option<int>
    const stagger: Option<int>
    var show: bool
    var enterShow: bool
    var enterAnimationShow: bool
    var enterTimerPending: bool
    var showTimersPending: nat
    var effects: seq<Effect>

    function Current(): State
      reads this
    {
      State(show, enterShow, enterAnimationShow, enterTimerPending, showTimersPending)
    }

    /** The site is shown, or about to be, only after the popup was told to
        fade out. */
    ghost predicate Valid()
      reads this
    {
      (show || showTimersPending > 0) ==> !enterAnimationShow
    }

    /** First render and mount: nothing shown yet, the popup set to appear. */
    constructor (animationTime: Option<int>, stagger: Option<int>)
      ensures Valid()
      ensures this.animationTime == animationTime && this.stagger == stagger
      ensures Current() == Initial()
      ensures effects == [ScheduleEnterShow(EnterShowDelay(animationTime))]
    {
      this.animationTime := animationTime;
      this.stagger := stagger;
      show, enterShow, enterAnimationShow := false, false, true;
      enterTimerPending, showTimersPending := true, 0;
      effects := [ScheduleEnterShow(EnterShowDelay(animationTime))];
    }

    /** The overlay covers the page until `show`; the popup sits in it once
        `enterShow`; content pages are wrapped in `App`. */
    function View(pathname: string): (r: Rendered)
      reads this
      ensures r.wrapInApp <==> IsURLContent(pathname)
      ensures r.overlay <==> !show
      ensures r.popup <==> !show && enterShow
      ensures r.popupShown == enterAnimationShow
    {
      Rendered(IsURLContent(pathname), !show, !show && enterShow, enterAnimationShow)
    }

    /** The mount timer fires: the popup appears. */
    method OnEnterTimer()
      requires Valid() && enterTimerPending
      modifies this
      ensures Valid()
      ensures Current() == Step(old(Current()), EnterTimerFires) && effects == old(effects)
    {
      enterShow := true;
      enterTimerPending := false;
    }

    /** `onEnter`: fade the popup out, then reveal the site later. */
    method OnEnter()
      requires Valid()
      modifies this
      ensures Valid()
      ensures Current() == Step(old(Current()), Enter)
      ensures effects == old(effects) + [ScheduleShow(ShowDelay(animationTime, stagger))]
    {
      enterAnimationShow := false;
      showTimersPending := showTimersPending + 1;
      effects := effects + [ScheduleShow(ShowDelay(animationTime, stagger))];
    }

    /** A timer set by `onEnter` fires: the site is shown, for good. */
    method OnShowTimer()
      requires Valid() && showTimersPending > 0
      modifies this
      ensures Valid()
      ensures Current() == Step(old(Current()), ShowTimerFires) && effects == old(effects)
    {
      show := true;
      showTimersPending := showTimersPending - 1;
    }

    /** The mount effect's cleanup clears the popup timer. */
    method Unmount()
      requires Valid()
      modifies this
      ensures Valid()
      ensures Current() == Step(old(Current()), Cleanup)
      ensures effects == old(effects) + [ClearEnterShowTimer]
    {
      enterTimerPending := false;
      effects := effects + [ClearEnterShowTimer];
    }
  }

  /** Mount, the popup timer, Enter, the reveal timer: the overlay with no
      popup, then the popup, then the site without the overlay. */
  method EntrySequence(animationTime: Option<int>, stagger: Option<int>, pathname: string)
    returns (atMount: Rendered, popupUp: Rendered, entered: Rendered)
    ensures atMount.overlay && !atMount.popup
    ensures popupUp.overlay && popupUp.popup && popupUp.popupShown
    ensures !entered.overlay && !entered.popup && !entered.popupShown
    ensures entered.wrapInApp == IsURLContent(pathname)
  {
    var t := new Template(animationTime, stagger);
    atMount := t.View(pathname);
    t.OnEnterTimer();
    popupUp := t.View(pathname);
    t.OnEnter();
    t.OnShowTimer();
    entered := t.View(pathname);
  }
}
