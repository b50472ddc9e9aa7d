/** The page and engagement tracker of sdk/src/browser.ts, as values: identity, session, page state and what is emitted. */
module Engagement {
  import opened Wrappers

  const MAX_FOREGROUND_GAP_MS := 30_000.0
  const MAX_PAGE_DURATION_MS := 604_800_000
  const MIN_HEARTBEAT_MS := 1_000

  datatype Reason = Heartbeat | VisibilityHidden | Blur | RouteChange | PageHide | Freeze | DurationRollover | Destroy

  /** `persistSession` never writes an empty session id. */
  type SessionKey = id: string | id != "" witness "session"

  datatype Identity = Identity(actor: string, session: SessionKey, route: string)

  /** The properties that every canonical event carries besides its own. */
  datatype Common = Common(acquisition: map<string, string>, context: map<string, string>)

  datatype Event =
    | Viewed(page: string, who: Identity, timestamp: real, common: Common)
    | Engaged(page: string, who: Identity, timestamp: real, common: Common,
              sequence: nat, foregroundMs: int, elapsedMs: int, maxScrollPct: int, interactions: nat, reason: Reason)

  datatype Page = Page(
    id: string,
    who: Identity,
    startedAt: real,
    lastTickAt: real,
    foregroundActive: bool,
    foregroundMs: real,
    maxScrollPct: int,
    interactions: nat,
    sequence: nat)

  /** The n-th reading of each clock, and the n-th created id. The wall clock may go backwards. */
  datatype Host = Host(monotonic: nat -> real, wall: nat -> real, ids: nat -> string, sessionTimeout: real, heartbeatMs: int)

  ghost predicate SoundHost(h: Host) {
    && (forall i, j :: i <= j ==> h.monotonic(i) <= h.monotonic(j))
    && (forall i, j :: h.ids(i) == h.ids(j) ==> i == j)
    && MIN_HEARTBEAT_MS <= h.heartbeatMs < MAX_PAGE_DURATION_MS
  }

  datatype Visibility = Visible | Hidden | Prerender | Unreported

  /** What a handler finds: consent, the mapped route, the document and its scroll measures, and the bounded context. */
  datatype View = View(
    allowed: bool,
    route: string,
    visibility: Visibility,
    focused: bool,
    height: int,
    innerHeight: int,
    scrollY: real,
    common: Common)

  /** One reading of the page clock, and whether the page was in the foreground until then. */
  datatype Reading = Reading(page: string, time: real, active: bool)

  /** `readings` only records. */
  datatype Tracker = Tracker(
    browser: bool,
    started: bool,
    visitor: Option<string>,
    actor: Option<string>,
    session: Option<SessionKey>,
    lastActivity: real,
    lastRoute: Option<string>,
    page: Option<Page>,
    ticks: nat,
    walls: nat,
    created: nat,
    emitted: seq<Event>,
    readings: seq<Reading>)

  const FRESH_TRACKER := Tracker(false, false, None, None, None, 0.0, None, None, 0, 0, 0, [], [])

  // ----- arithmetic -----

  /** `Math.round`: halves go up. */
  function Round(x: real): int { (x + 0.5).Floor }

  function MinInt(a: int, b: int): int { if a <= b then a else b }
  function MaxInt(a: int, b: int): int { if a >= b then a else b }
  function MinReal(a: real, b: real): real { if a <= b then a else b }
  function MaxReal(a: real, b: real): real { if a >= b then a else b }

  function ScrollPct(v: View): (pct: int)
    ensures 0 <= pct <= 100
  {
    var scrollable := MaxInt(0, v.height - v.innerHeight);
    if scrollable == 0 then 100 else MaxInt(0, MinInt(100, Round(v.scrollY / scrollable as real * 100.0)))
  }

  /** Not hidden and not prerendered. */
  predicate IsVisible(v: View) { v.visibility != Hidden && v.visibility != Prerender }

  // ----- clocks, ids, session -----

  predicate Identified(s: Tracker) { s.visitor.Some? && s.actor.Some? && s.session.Some? }

  predicate IsIdle(h: Host, s: Tracker) {
    s.session.None? || h.wall(s.walls) - s.lastActivity > h.sessionTimeout
  }

  function SessionId(h: Host, n: nat): SessionKey { "session:" + h.ids(n) }
  function PageId(h: Host, n: nat): string { "page:" + h.ids(n) }

  /** A new session starts now. */
  function RotateSession(h: Host, s: Tracker): Tracker {
    s.(session := Some(SessionId(h, s.created)), created := s.created + 1,
       lastActivity := h.wall(s.walls), walls := s.walls + 1, lastRoute := None)
  }

  /** `ensureActiveSession`: one reading decides, and becomes the last activity. */
  function EnsureActiveSession(h: Host, s: Tracker): Tracker {
    if IsIdle(h, s) then RotateSession(h, s) else s.(lastActivity := h.wall(s.walls), walls := s.walls + 1)
  }

  // ----- the page clock -----

  function Gap(h: Host, s: Tracker, p: Page): real {
    MaxReal(0.0, MinReal(MAX_FOREGROUND_GAP_MS, h.monotonic(s.ticks) - p.lastTickAt))
  }

  function TickedPage(h: Host, s: Tracker, v: View, p: Page): Page {
    p.(foregroundMs := if p.foregroundActive then p.foregroundMs + Gap(h, s, p) else p.foregroundMs,
       lastTickAt := h.monotonic(s.ticks),
       maxScrollPct := MaxInt(p.maxScrollPct, ScrollPct(v)))
  }

  /** `updateClock`. */
  function UpdateClock(h: Host, s: Tracker, v: View): Tracker {
    if s.page.None? then s
    else
      s.(page := Some(TickedPage(h, s, v, s.page.value)), ticks := s.ticks + 1,
         readings := s.readings + [Reading(s.page.value.id, h.monotonic(s.ticks), s.page.value.foregroundActive)])
  }

  function ElapsedMs(h: Host, s: Tracker, p: Page): int {
    MinInt(MAX_PAGE_DURATION_MS, MaxInt(0, Round(h.monotonic(s.ticks) - p.startedAt)))
  }

  /** `captureCanonical`: nothing leaves without consent and an identity. */
  function Emit(s: Tracker, v: View, e: Event): Tracker {
    if v.allowed && Identified(s) then s.(emitted := s.emitted + [e]) else s
  }

  function Snapshot(h: Host, s: Tracker, v: View, p: Page, reason: Reason): Event {
    var elapsed := ElapsedMs(h, s, p);
    Engaged(p.id, p.who, h.wall(s.walls), v.common, p.sequence, MinInt(Round(p.foregroundMs), elapsed), elapsed,
            p.maxScrollPct, p.interactions, reason)
  }

  predicate CanFlush(s: Tracker, v: View) { s.page.Some? && v.allowed }

  /** The page state after `updateClock` and the next sequence number. */
  function Counted(h: Host, s: Tracker, v: View): Tracker
    requires s.page.Some?
  {
    var ticked := UpdateClock(h, s, v);
    ticked.(page := Some(ticked.page.value.(sequence := ticked.page.value.sequence + 1)),
            lastActivity := h.wall(s.walls), walls := s.walls + 1)
  }

  /** `flushEngagement`: a cumulative snapshot under the identity the page was opened with. */
  function FlushEngagement(h: Host, s: Tracker, v: View, reason: Reason): Tracker {
    if !CanFlush(s, v) then s
    else
      var counted := Counted(h, s, v);
      var e := Snapshot(h, counted, v, counted.page.value, reason);
      Emit(counted.(ticks := counted.ticks + 1, walls := counted.walls + 1), v, e)
  }

  // ----- pages -----

  /** `startPage`: the page keeps the identity of this moment for life. */
  function StartPage(h: Host, s: Tracker, v: View, route: string): Tracker {
    if s.actor.None? || s.session.None? then s
    else
      var tick := h.monotonic(s.ticks);
      var id := PageId(h, s.created);
      var page := Page(id, Identity(s.actor.value, s.session.value, route), tick, tick, IsVisible(v) && v.focused,
                       0.0, ScrollPct(v), 0, 0);
      Emit(s.(page := Some(page), ticks := s.ticks + 1, created := s.created + 1, walls := s.walls + 1,
              readings := s.readings + [Reading(id, tick, false)]), v,
           Viewed(id, Identity(s.actor.value, s.session.value, v.route), h.wall(s.walls), v.common))
  }

  /** `pageViewed`: close the old page, then open the new one in the old or a new session. */
  function PageViewed(h: Host, s: Tracker, v: View): Tracker {
    if !v.allowed || s.visitor.None? || s.actor.None? then s
    else if s.lastRoute == Some(v.route) then s
    else
      var expired := IsIdle(h, s);
      var flushed := FlushEngagement(h, s.(walls := s.walls + 1), v, RouteChange);
      var active := if expired then RotateSession(h, flushed) else EnsureActiveSession(h, flushed);
      StartPage(h, active.(lastRoute := Some(v.route)), v, v.route)
  }

  /** `resumeAfterIdle`: an idle session is replaced together with its page. */
  function ResumeAfterIdle(h: Host, s: Tracker, v: View): Tracker {
    PageViewed(h, RotateSession(h, s.(page := None, walls := s.walls + 1)), v)
  }

  predicate MustResume(h: Host, s: Tracker) { s.session.Some? && IsIdle(h, s) }

  /** The wall clock was read to find that the session is not idle. */
  function Checked(s: Tracker): Tracker { s.(walls := s.walls + 1) }

  predicate IsLong(h: Host, s: Tracker) {
    s.page.Some? && h.monotonic(s.ticks) - s.page.value.startedAt >= (MAX_PAGE_DURATION_MS - h.heartbeatMs) as real
  }

  /** `rolloverLongPage`: a page near the duration ceiling goes on under a new page view. */
  function RolloverLongPage(h: Host, s: Tracker, v: View): Tracker {
    var read := s.(ticks := s.ticks + 1);
    if !IsLong(h, s) || !CanFlush(read, v) then read
    else
      var route := s.page.value.who.route;
      StartPage(h, FlushEngagement(h, read, v, DurationRollover).(page := None), v, route)
  }

  // ----- handlers -----

  function SetActive(s: Tracker, active: bool): Tracker {
    if s.page.None? then s else s.(page := Some(s.page.value.(foregroundActive := active)))
  }

  predicate IsActive(s: Tracker) { s.page.Some? && s.page.value.foregroundActive }

  /** The identity found or made by `ensureIdentity`; a saved session counts while it is not idle. */
  datatype Saved = Saved(visitor: Option<string>, session: Option<(SessionKey, real)>)

  function EnsureVisitor(h: Host, s: Tracker, saved: Option<string>): Tracker {
    if saved.Some? && saved.value != "" then s.(visitor := saved)
    else s.(visitor := Some("visitor:" + h.ids(s.created)), created := s.created + 1)
  }

  function EnsureSession(h: Host, s: Tracker, saved: Option<(SessionKey, real)>): Tracker {
    if saved.None? || h.wall(s.walls) - saved.value.1 > h.sessionTimeout then RotateSession(h, s)
    else s.(session := Some(saved.value.0), lastActivity := saved.value.1, walls := s.walls + 1)
  }

  function EnsureIdentity(h: Host, s: Tracker, saved: Saved): Tracker {
    var ready := EnsureSession(h, EnsureVisitor(h, s, saved.visitor), saved.session);
    ready.(actor := if ready.actor.Some? then ready.actor else ready.visitor)
  }

  datatype Step =
    | Starting(saved: Saved)
    | Navigating
    | ChangingVisibility
    | Focusing
    | Blurring
    | Scrolling
    | Interacting
    | Hiding(reason: Reason)
    | Resuming
    | Beating
    | Tracking
    | Identifying(user: string)
    | Resetting
    | Destroying
    | Clearing

  function OnVisibility(h: Host, s: Tracker, v: View): Tracker {
    var t := UpdateClock(h, s, v);
    if t.page.None? then t
    else if !IsVisible(v) && IsActive(t) then FlushEngagement(h, SetActive(t, false), v, VisibilityHidden)
    else if IsVisible(v) && MustResume(h, t) then ResumeAfterIdle(h, t, v)
    else SetActive(Checked(t), IsVisible(v) && v.focused)
  }

  function OnFocus(h: Host, s: Tracker, v: View): Tracker {
    var t := UpdateClock(h, s, v);
    if MustResume(h, t) then ResumeAfterIdle(h, t, v) else SetActive(Checked(t), v.visibility == Visible)
  }

  function OnBlur(h: Host, s: Tracker, v: View): Tracker {
    var t := UpdateClock(h, s, v);
    if IsActive(t) then FlushEngagement(h, SetActive(t, false), v, Blur) else t
  }

  function OnScroll(s: Tracker, v: View): Tracker {
    if s.page.None? then s
    else s.(page := Some(s.page.value.(maxScrollPct := MaxInt(s.page.value.maxScrollPct, ScrollPct(v)))))
  }

  function OnInteraction(s: Tracker): Tracker {
    if IsActive(s) then s.(page := Some(s.page.value.(interactions := s.page.value.interactions + 1))) else s
  }

  function OnTerminal(h: Host, s: Tracker, v: View, reason: Reason): Tracker {
    FlushEngagement(h, SetActive(UpdateClock(h, s, v), false), v, reason)
  }

  function OnResume(h: Host, s: Tracker, v: View): Tracker {
    var t := UpdateClock(h, s, v);
    if MustResume(h, t) then ResumeAfterIdle(h, t, v) else SetActive(Checked(t), v.visibility == Visible && v.focused)
  }

  function OnHeartbeat(h: Host, s: Tracker, v: View): Tracker {
    var t := UpdateClock(h, s, v);
    if !IsActive(t) then t
    else if IsLong(h, t) && CanFlush(t, v) then RolloverLongPage(h, t, v)
    else FlushEngagement(h, RolloverLongPage(h, t, v), v, Heartbeat)
  }

  function Identify(s: Tracker, user: string): Tracker {
    if s.visitor.None? || user == "" || |user| > 200 then s else s.(actor := Some(user))
  }

  /** `resetIdentity`, when the storage really was cleared. */
  function ResetIdentity(h: Host, s: Tracker, v: View): Tracker {
    var flushed := FlushEngagement(h, s, v, Destroy);
    var cleared := flushed.(page := None, visitor := None, actor := None, session := None, lastRoute := None);
    if !v.allowed then cleared else PageViewed(h, EnsureIdentity(h, cleared, Saved(None, None)), v)
  }

  function Clear(s: Tracker): Tracker {
    s.(page := None, visitor := None, actor := None, session := None, lastRoute := None, started := false)
  }

  function Start(h: Host, s: Tracker, v: View, saved: Saved): Tracker {
    if !v.allowed || s.started then s
    else PageViewed(h, EnsureIdentity(h, s.(browser := true), saved).(started := true), v)
  }

  function Apply(h: Host, s: Tracker, v: View, step: Step): Tracker {
    match step
    case Starting(saved) => Start(h, s, v, saved)
    case Navigating => PageViewed(h, s, v)
    case ChangingVisibility => OnVisibility(h, s, v)
    case Focusing => OnFocus(h, s, v)
    case Blurring => OnBlur(h, s, v)
    case Scrolling => OnScroll(s, v)
    case Interacting => OnInteraction(s)
    case Hiding(reason) => OnTerminal(h, s, v, reason)
    case Resuming => OnResume(h, s, v)
    case Beating => OnHeartbeat(h, s, v)
    case Tracking => if v.allowed && s.visitor.Some? && s.actor.Some? then EnsureActiveSession(h, s) else s
    case Identifying(user) => Identify(s, user)
    case Resetting => if s.browser then ResetIdentity(h, s, v) else s
    case Destroying => FlushEngagement(h, s, v, Destroy).(page := None, started := false)
    case Clearing => Clear(s)
  }

  function Run(h: Host, steps: seq<(Step, View)>): Tracker {
    if steps == [] then FRESH_TRACKER
    else Apply(h, Run(h, steps[..|steps| - 1]), steps[|steps| - 1].1, steps[|steps| - 1].0)
  }
}
