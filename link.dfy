/** The site's `Link`: a click plays a sound, announces the route change and,
    after a delay, opens a new window, leaves for an external URL or pushes an
    internal route. One module-wide slot holds the pending navigation timer,
    so a new click cancels the navigation an earlier click scheduled. */
module Link {
  import opened Js

  /** The default of the `activeClassName` prop. */
  const ActiveClassName := "link-active"

  /** The props that decide what a click does. `href` defaults to "". */
  datatype LinkProps = LinkProps(
    href: string,
    target: Option<string>,
    delay: Option<int>,
    hasOnClick: bool,
    hasOnLinkStart: bool,
    hasOnLinkEnd: bool)

  /** The `linkProps` object handed to the callbacks and route events. */
  datatype LinkInfo = LinkInfo(href: string, isOut: bool, isExternalURL: bool, isSame: bool, isInternal: bool)

  /** A navigation waiting for its timer. */
  datatype Navigation = Navigation(info: LinkInfo, hasOnLinkEnd: bool, delay: int)

  datatype Effect =
    | OnClick
    | PlayClickSound
    | OnLinkStart(info: LinkInfo)
    | RouteChangeStart(info: LinkInfo)
    | WindowOpen(url: string)
    | SetLocationHref(url: string)
    | RouterPush(url: string)
    | OnLinkEnd(info: LinkInfo)
    | RouteChangeEnd(info: LinkInfo)

  /** The pattern `^https?://` read as it is written: "http", an optional
      "s", then "://", at the start of the string. */
  predicate MatchesSchemePattern(href: string)
  {
    StartsWith(href, "http") &&
    var rest := if |href| > 4 && href[4] == 's' then href[5..] else href[4..];
    StartsWith(rest, "://")
  }

  lemma StartsWithConcat(s: string, a: string, b: string)
    ensures StartsWith(s, a + b) <==> StartsWith(s, a) && StartsWith(s[|a|..], b)
  {
    if StartsWith(s, a + b) {
      assert s[..|a|] == (a + b)[..|a|];
      assert s[|a|..][..|b|] == (a + b)[|a|..];
    }
    if StartsWith(s, a) && StartsWith(s[|a|..], b) {
      assert s[..|a + b|] == s[..|a|] + s[|a|..][..|b|];
    }
  }

  /** `checkURLExternal.test(href)`: the URL starts with "http://" or
      "https://", letter case included. */
  function IsExternalURL(href: string): (b: bool)
    ensures b <==> StartsWith(href, "http://") || StartsWith(href, "https://")
  {
    assert "http://" == "http" + "://";
    assert "https://" == "http" + "s://";
    StartsWithConcat(href, "http", "://");
    StartsWithConcat(href, "http", "s://");
    if StartsWith(href, "http") then
      assert "s://" == "s" + "://";
      StartsWithConcat(href[4..], "s", "://");
      assert |href| > 4 ==> href[4..][1..] == href[5..];
      MatchesSchemePattern(href)
    else
      MatchesSchemePattern(href)
  }

  /** The flags computed for a click on `href` while the page is at
      `pathname`. */
  function Describe(href: string, target: Option<string>, pathname: string): (info: LinkInfo)
    ensures info.href == href
    ensures info.isSame <==> pathname == href
    ensures info.isOut <==> Present(target)
    ensures info.isExternalURL <==> StartsWith(href, "http://") || StartsWith(href, "https://")
    ensures info.isInternal <==> !Present(target) && pathname != href
  {
    var isSame := pathname == href;
    var isOut := Present(target);
    LinkInfo(href, isOut, IsExternalURL(href), isSame, !isOut && !isSame)
  }

  /** The `isInternal` flag handed to the callbacks is `!isOut && !isSame`,
      not `!isOut && !isExternalURL`: a link to another site without a target
      is reported as internal, and still leaves through `location.href`. */
  lemma ExternalLinkReportedInternal(href: string, pathname: string)
    requires StartsWith(href, "http://") || StartsWith(href, "https://")
    requires pathname != href
    ensures Describe(href, None, pathname).isExternalURL
    ensures Describe(href, None, pathname).isInternal
    ensures NavigationStep(Describe(href, None, pathname)) == SetLocationHref(href)
  {
  }

  /** `delay || theme.animation.time`. */
  function NavigationDelay(delay: Option<int>, animationTime: int): (ms: int)
    ensures delay.Some? && delay.value != 0 ==> ms == delay.value
    ensures delay.None? || delay.value == 0 ==> ms == animationTime
  {
    match delay
    case Some(d) => if d != 0 then d else animationTime
    case None => animationTime
  }

  /** What a click does at once. An empty `href` only runs `onClick`. */
  function TriggerEffects(p: LinkProps, pathname: string): (effects: seq<Effect>)
    ensures p.href == "" ==> effects == if p.hasOnClick then [OnClick] else []
    ensures p.href != "" ==>
      |effects| >= 2 && effects[0] == PlayClickSound &&
      effects[|effects| - 1] == RouteChangeStart(Describe(p.href, p.target, pathname))
    ensures OnClick in effects <==> p.hasOnClick
    ensures PlayClickSound in effects <==> p.href != ""
    ensures p.href != "" ==>
      |effects| == 2 + (if p.hasOnClick then 1 else 0) + (if p.hasOnLinkStart then 1 else 0)
    ensures OnLinkStart(Describe(p.href, p.target, pathname)) in effects <==> p.href != "" && p.hasOnLinkStart
    ensures forall e :: e in effects ==> e.OnClick? || e.PlayClickSound? || e.OnLinkStart? || e.RouteChangeStart?
    ensures forall e :: e in effects && (e.OnLinkStart? || e.RouteChangeStart?) ==>
      e.info == Describe(p.href, p.target, pathname)
    ensures forall i, j ::
      (0 <= i < |effects| && 0 <= j < |effects| && effects[i] == OnClick && effects[j].OnLinkStart?) ==> i < j
  {
    if p.href == "" then
      if p.hasOnClick then [OnClick] else []
    else
      var info := Describe(p.href, p.target, pathname);
      [PlayClickSound] +
      (if p.hasOnClick then [OnClick] else []) +
      (if p.hasOnLinkStart then [OnLinkStart(info)] else []) +
      [RouteChangeStart(info)]
  }

  /** The navigation a click schedules: none for an empty `href` or for the
      page already shown. */
  function Schedule(p: LinkProps, pathname: string, animationTime: int): (n: Option<Navigation>)
    ensures n.None? <==> p.href == "" || p.href == pathname
    ensures n.Some? ==>
      n.value.info == Describe(p.href, p.target, pathname) &&
      n.value.hasOnLinkEnd == p.hasOnLinkEnd &&
      n.value.delay == NavigationDelay(p.delay, animationTime)
  {
    if p.href == "" || p.href == pathname then None
    else Some(Navigation(Describe(p.href, p.target, pathname), p.hasOnLinkEnd,
                         NavigationDelay(p.delay, animationTime)))
  }

  /** How the timer leaves the page: a target opens a window, otherwise an
      external URL replaces the location, otherwise the router pushes. */
  function NavigationStep(info: LinkInfo): (e: Effect)
    ensures info.isOut ==> e == WindowOpen(info.href)
    ensures !info.isOut && info.isExternalURL ==> e == SetLocationHref(info.href)
    ensures !info.isOut && !info.isExternalURL ==> e == RouterPush(info.href)
  {
    if info.isOut then WindowOpen(info.href)
    else if info.isExternalURL then SetLocationHref(info.href)
    else RouterPush(info.href)
  }

  /** What the timer does when it fires. */
  function FireEffects(n: Navigation): (effects: seq<Effect>)
    ensures |effects| >= 2 && effects[0] == NavigationStep(n.info)
    ensures effects[|effects| - 1] == RouteChangeEnd(n.info)
    ensures OnLinkEnd(n.info) in effects <==> n.hasOnLinkEnd
    ensures |effects| == if n.hasOnLinkEnd then 3 else 2
  {
    [NavigationStep(n.info)] + (if n.hasOnLinkEnd then [OnLinkEnd(n.info)] else []) + [RouteChangeEnd(n.info)]
  }

  /** `cx(className, linkMatchesURL && activeClassName)`: the class list,
      with the active class exactly when the link points at the current
      page. An absent `activeClassName` prop means "link-active". */
  function ClassName(className: Option<string>, activeClassName: Option<string>, pathname: string, href: string): (r: string)
    ensures activeClassName.None? && pathname == href ==>
      r == (if Present(className) then className.value + " " else "") + ActiveClassName
    ensures var active := if activeClassName.Some? then activeClassName.value else ActiveClassName;
      pathname == href && active != "" ==>
        r == (if Present(className) then className.value + " " else "") + active
    ensures var active := if activeClassName.Some? then activeClassName.value else ActiveClassName;
      pathname != href || active == "" ==>
        r == (if Present(className) then className.value else "")
  {
    var active := if activeClassName.Some? then activeClassName.value else ActiveClassName;
    var parts := (if Present(className) then [className.value] else []) +
                 (if pathname == href && active != "" then [active] else []);
    if |parts| == 2 then parts[0] + " " + parts[1]
    else if |parts| == 1 then parts[0]
    else ""
  }

  /** The module-wide state: `globalLinkTimeout` (the id of the last timer a
      click set, or null), the link timers still pending by id, and what the
      links have done. */
  class LinkRuntime {
    var globalLinkTimeout: Option<nat>
    var timers: map<nat, Navigation>
    var nextTimerId: nat
    var effects: seq<Effect>

    /** At most one navigation is pending, and it is the one the slot names. */
    ghost predicate Valid()
      reads this
    {
      (forall id :: id in timers ==> globalLinkTimeout == Some(id)) &&
      (globalLinkTimeout.Some? ==> globalLinkTimeout.value < nextTimerId)
    }

    constructor ()
      ensures Valid()
      ensures globalLinkTimeout == None && timers == map[] && effects == []
    {
      globalLinkTimeout := None;
      timers := map[];
      nextTimerId := 0;
      effects := [];
    }

    /** The number of link navigations still pending: never more than one. */
    function PendingCount(): (k: nat)
      reads this
      requires Valid()
      ensures k <= 1
      ensures k == 1 <==> globalLinkTimeout.Some? && globalLinkTimeout.value in timers
    {
      if globalLinkTimeout.Some? && globalLinkTimeout.value in timers then
        assert timers.Keys == {globalLinkTimeout.value};
        |timers|
      else
        assert timers.Keys == {};
        |timers|
    }

    /** `onLinkTrigger`: the immediate effects, then, unless the click stays
        on the page, the previous timer is cleared and a new one set. */
    method Trigger(p: LinkProps, pathname: string, animationTime: int)
      requires Valid()
      modifies this
      ensures Valid()
      ensures effects == old(effects) + TriggerEffects(p, pathname)
      ensures Schedule(p, pathname, animationTime).None? ==>
        timers == old(timers) && globalLinkTimeout == old(globalLinkTimeout)
      ensures Schedule(p, pathname, animationTime).Some? ==>
        globalLinkTimeout == Some(old(nextTimerId)) &&
        timers == map[old(nextTimerId) := Schedule(p, pathname, animationTime).value]
    {
      effects := effects + TriggerEffects(p, pathname);
      var n := Schedule(p, pathname, animationTime);
      if n.None? {
        return;
      }
      if globalLinkTimeout.Some? {
        timers := timers - {globalLinkTimeout.value};
      }
      assert timers == map[];
      var id := nextTimerId;
      nextTimerId := nextTimerId + 1;
      timers := timers[id := n.value];
      globalLinkTimeout := Some(id);
    }

    /** A pending link timer fires. */
    method Fire(id: nat)
      requires Valid() && id in timers
      modifies this
      ensures Valid()
      ensures effects == old(effects) + FireEffects(old(timers)[id])
      ensures timers == map[] && globalLinkTimeout == old(globalLinkTimeout)
    {
      effects := effects + FireEffects(timers[id]);
      timers := timers - {id};
    }
  }

  /** Two quick clicks on different internal links: only the second one is
      still pending. */
  method SecondClickWins(first: string, second: string, pathname: string)
    returns (pending: map<nat, Navigation>)
    requires first != "" && second != "" && first != pathname && second != pathname
    ensures |pending| == 1
    ensures forall id :: id in pending ==> pending[id].info.href == second
  {
    var runtime := new LinkRuntime();
    var noCallbacks := LinkProps(first, None, None, false, false, false);
    runtime.Trigger(noCallbacks, pathname, 250);
    runtime.Trigger(noCallbacks.(href := second), pathname, 250);
    pending := runtime.timers;
  }
}
