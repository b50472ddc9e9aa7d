/** What every handler of the tracker reads, emits and leaves behind, as one table. */
module EngagementHandlers {
  import opened Wrappers
  import opened Engagement
  import EngagementChain

  // ----- the table -----

  /** Neither hidden nor prerendered. */
  predicate Shown(v: View) { v.visibility == Visible || v.visibility == Unreported }

  predicate Lapsed(h: Host, s: Tracker) {
    s.session.Some? && h.wall(s.walls) - s.lastActivity > h.sessionTimeout
  }

  /** At the second reading of a heartbeat the page is within one heartbeat of seven days. */
  predicate NearLimit(h: Host, p: Page, ticks: nat) {
    h.monotonic(ticks + 1) - p.startedAt >= (604_800_000 - h.heartbeatMs) as real
  }

  /** A start moves to another route, or to another session. */
  predicate Moves(h: Host, s: Tracker, v: View, saved: Saved) {
    || saved.session.None?
    || h.wall(s.walls) - saved.session.value.1 > h.sessionTimeout
    || s.lastRoute != Some(v.route)
  }

  /** The reason of the snapshot that a step emits of the open page. */
  function Closing(h: Host, s: Tracker, v: View, step: Step): Option<Reason> {
    if s.page.None? || !v.allowed then None
    else
      var active := s.page.value.foregroundActive;
      match step
      case Starting(saved) =>
        if !s.started && Moves(h, s, v, saved) then Some(RouteChange) else None
      case Navigating => if s.lastRoute != Some(v.route) then Some(RouteChange) else None
      case ChangingVisibility => if active && !Shown(v) then Some(VisibilityHidden) else None
      case Blurring => if active then Some(Blur) else None
      case Hiding(reason) => Some(reason)
      case Beating =>
        if !active then None
        else if NearLimit(h, s.page.value, s.ticks) then Some(DurationRollover)
        else Some(Heartbeat)
      case Resetting => if s.browser then Some(Destroy) else None
      case Destroying => Some(Destroy)
      case _ => None
  }

  /** The readings of the wall clock before the one that dates a snapshot. */
  function Before(step: Step): nat { if step.Starting? then 3 else if step.Navigating? then 2 else 1 }

  /** A step opens a new page view. */
  predicate Opening(h: Host, s: Tracker, v: View, step: Step) {
    && v.allowed
    && match step
       case Starting(saved) => !s.started && Moves(h, s, v, saved)
       case Navigating => s.visitor.Some? && s.actor.Some? && s.lastRoute != Some(v.route)
       case ChangingVisibility => s.page.Some? && Shown(v) && Lapsed(h, s)
       case Focusing => s.visitor.Some? && s.actor.Some? && Lapsed(h, s)
       case Resuming => s.visitor.Some? && s.actor.Some? && Lapsed(h, s)
       case Beating => s.page.Some? && s.page.value.foregroundActive && NearLimit(h, s.page.value, s.ticks)
       case Resetting => s.browser
       case _ => false
  }

  /** A step closes the open page and opens none. */
  predicate Dropping(h: Host, s: Tracker, v: View, step: Step) {
    && !Opening(h, s, v, step)
    && match step
       case ChangingVisibility => Shown(v) && Lapsed(h, s)
       case Focusing => Lapsed(h, s)
       case Resuming => Lapsed(h, s)
       case Resetting => s.browser
       case Destroying => true
       case Clearing => true
       case _ => false
  }

  /** The page was in the foreground before each of the readings that a step takes of it. */
  function Reads(h: Host, s: Tracker, v: View, step: Step): seq<bool> {
    if s.page.None? then []
    else
      var active := s.page.value.foregroundActive;
      match step
      case ChangingVisibility => if active && !Shown(v) && v.allowed then [active, false] else [active]
      case Focusing => [active]
      case Resuming => [active]
      case Blurring => if active && v.allowed then [active, false] else [active]
      case Hiding(_) => if v.allowed then [active, false] else [active]
      case Beating => if active && v.allowed then [active, active] else [active]
      case _ => if Closing(h, s, v, step).Some? then [active] else []
  }

  /** Whether a page that stays open is in the foreground from now on. */
  predicate Foreground(p: Page, v: View, step: Step) {
    match step
    case ChangingVisibility => Shown(v) && v.focused
    case Focusing => v.visibility == Visible
    case Resuming => v.visibility == Visible && v.focused
    case Blurring => false
    case Hiding(_) => false
    case _ => p.foregroundActive
  }

  // ----- what is said of a step -----

  /** A snapshot of `p` with its counts of this moment, and when it was taken. */
  predicate SnapOf(e: Event, p: Page, v: View, reason: Reason, time: real) {
    && e.Engaged? && e.page == p.id && e.who == p.who && e.reason == reason && e.common == v.common
    && e.interactions == p.interactions && e.maxScrollPct == MaxInt(p.maxScrollPct, ScrollPct(v))
    && e.sequence == p.sequence + 1 && e.timestamp == time
  }

  /** The page view that opened the page of `t`. */
  predicate ViewOf(h: Host, e: Event, t: Tracker, v: View) {
    && e.Viewed? && t.page.Some? && t.actor.Some? && t.session.Some?
    && e.page == t.page.value.id && e.who == Identity(t.actor.value, t.session.value, v.route) && e.common == v.common
    && 0 < t.walls && e.timestamp == h.wall(t.walls - 1)
  }

  predicate Emits(h: Host, s: Tracker, t: Tracker, v: View, reason: Option<Reason>, walls: nat, anew: bool) {
    var n := |s.emitted|;
    && s.emitted <= t.emitted
    && |t.emitted| == n + (if reason.Some? then 1 else 0) + (if anew then 1 else 0)
    && (reason.Some? ==> s.page.Some? && SnapOf(t.emitted[n], s.page.value, v, reason.value, h.wall(walls)))
    && (anew ==> ViewOf(h, t.emitted[|t.emitted| - 1], t, v))
  }

  /** Readings of the page `id`: the first at once, another one after `second` more readings of the clock. */
  function Taken(h: Host, id: string, ticks: nat, flags: seq<bool>, second: nat): seq<Reading> {
    if flags == [] then []
    else if |flags| == 1 then [Reading(id, h.monotonic(ticks), flags[0])]
    else [Reading(id, h.monotonic(ticks), flags[0]), Reading(id, h.monotonic(ticks + second), flags[1])]
  }

  /** The readings since `s` are of its page, and the last one is the first of a new page. */
  predicate Took(h: Host, s: Tracker, t: Tracker, flags: seq<bool>, second: nat, anew: bool) {
    && (flags != [] ==> s.page.Some?)
    && var held := s.readings + Taken(h, if s.page.Some? then s.page.value.id else "", s.ticks, flags, second);
    if anew then t.page.Some? && 0 < t.ticks && t.readings == held + [Reading(t.page.value.id, h.monotonic(t.ticks - 1), false)]
    else t.readings == held
  }

  predicate Fresh(t: Tracker, v: View) {
    && t.page.Some? && t.page.value.foregroundActive == (Shown(v) && v.focused) && t.page.value.foregroundMs == 0.0
    && t.page.value.maxScrollPct == ScrollPct(v) && t.page.value.interactions == 0 && t.page.value.sequence == 0
  }

  /** The page of `t` was opened under the identity of this moment, on `route`. */
  predicate Under(t: Tracker, route: string) {
    t.page.Some? && t.actor.Some? && t.session.Some? && t.page.value.who == Identity(t.actor.value, t.session.value, route)
  }

  /** The page that a step leaves open is the same page view. */
  predicate Stays(h: Host, s: Tracker, t: Tracker, v: View, step: Step) {
    && t.page.Some? == s.page.Some?
    && (s.page.Some? ==>
          var p, q := s.page.value, t.page.value;
          && q.id == p.id && q.who == p.who && q.startedAt == p.startedAt
          && q.foregroundActive == Foreground(p, v, step)
          && q.interactions == p.interactions + (if step == Interacting && p.foregroundActive then 1 else 0)
          && q.maxScrollPct == (if step == Scrolling || Reads(h, s, v, step) != [] then MaxInt(p.maxScrollPct, ScrollPct(v)) else p.maxScrollPct)
          && q.sequence == p.sequence + (if Closing(h, s, v, step).Some? then 1 else 0))
  }

  /** An open page has an identity, as on every run. */
  predicate Known(s: Tracker) { s.page.Some? ==> Identified(s) }

  /** All that a step does to events, readings and the page. */
  ghost predicate Follows(h: Host, s: Tracker, v: View, step: Step, t: Tracker) {
    && Emits(h, s, t, v, Closing(h, s, v, step), s.walls + Before(step), Opening(h, s, v, step))
    && Took(h, s, t, Reads(h, s, v, step), if step == Beating then 2 else 1, Opening(h, s, v, step))
    && (if Opening(h, s, v, step) then Fresh(t, v) && Under(t, if step == Beating then s.page.value.who.route else v.route)
        else if Dropping(h, s, v, step) then t.page.None?
        else Stays(h, s, t, v, step))
  }

  // ----- the pieces -----

  lemma Simple(h: Host, s: Tracker, v: View, step: Step)
    requires Known(s)
    requires step in {Scrolling, Interacting, Tracking, Clearing} || step.Identifying?
    ensures Follows(h, s, v, step, Apply(h, s, v, step))
  {
    hide ScrollPct, MaxInt, PageId, SessionId;
  }

  /** `t` is `s` after a snapshot of its page. */
  predicate Flushed(h: Host, s: Tracker, v: View, reason: Reason, t: Tracker) {
    && s.page.Some? && t.page.Some? && |t.emitted| == |s.emitted| + 1
    && var p, e := s.page.value, t.emitted[|s.emitted|];
    && SnapOf(e, p, v, reason, h.wall(s.walls + 1))
    && t == s.(page := Some(p.(foregroundMs := t.page.value.foregroundMs, lastTickAt := t.page.value.lastTickAt,
                               maxScrollPct := MaxInt(p.maxScrollPct, ScrollPct(v)), sequence := p.sequence + 1)),
               emitted := s.emitted + [e], readings := s.readings + [Reading(p.id, h.monotonic(s.ticks), p.foregroundActive)],
               ticks := s.ticks + 2, walls := s.walls + 2, lastActivity := h.wall(s.walls))
  }

  lemma Flushes(h: Host, s: Tracker, v: View, reason: Reason)
    requires Known(s)
    ensures var t := FlushEngagement(h, s, v, reason);
            if s.page.Some? && v.allowed then Flushed(h, s, v, reason, t) else t == s
  {
    hide ScrollPct, Round, ElapsedMs, Gap;
  }

  /** `t` is `s` after its clock was read. */
  predicate Ticked(h: Host, s: Tracker, v: View, t: Tracker) {
    && s.page.Some? && t.page.Some?
    && var p := s.page.value;
    && t == s.(page := Some(p.(foregroundMs := t.page.value.foregroundMs, lastTickAt := t.page.value.lastTickAt,
                               maxScrollPct := MaxInt(p.maxScrollPct, ScrollPct(v)))),
               readings := s.readings + [Reading(p.id, h.monotonic(s.ticks), p.foregroundActive)], ticks := s.ticks + 1)
  }

  lemma Ticks(h: Host, s: Tracker, v: View)
    ensures var t := UpdateClock(h, s, v);
            if s.page.Some? then Ticked(h, s, v, t) else t == s
  {
    hide ScrollPct, Round, Gap;
  }

  /** `t` is `s` with a new page view. */
  predicate Opened(h: Host, s: Tracker, v: View, route: string, t: Tracker) {
    && Fresh(t, v) && Under(t, route) && |t.emitted| == |s.emitted| + 1
    && ViewOf(h, t.emitted[|s.emitted|], t, v)
    && t == s.(page := t.page, created := s.created + 1, emitted := s.emitted + [t.emitted[|s.emitted|]],
               readings := s.readings + [Reading(t.page.value.id, h.monotonic(s.ticks), false)],
               ticks := s.ticks + 1, walls := s.walls + 1)
  }

  lemma Opens(h: Host, s: Tracker, v: View, route: string)
    requires Identified(s) && v.allowed
    ensures Opened(h, s, v, route, StartPage(h, s, v, route))
  {
    hide ScrollPct, PageId;
  }

  /** One reading of the clock, and no event. */
  lemma ClockOnly(h: Host, s: Tracker, v: View, u: Tracker, second: nat)
    requires u.emitted == UpdateClock(h, s, v).emitted && u.readings == UpdateClock(h, s, v).readings
    ensures Emits(h, s, u, v, None, s.walls + 1, false)
    ensures Took(h, s, u, if s.page.Some? then [s.page.value.foregroundActive] else [], second, false)
  {
    Ticks(h, s, v);
    hide ScrollPct, UpdateClock;
  }

  /** A reading, and a snapshot of the page that is no longer in the foreground. */
  lemma TurnedAway(h: Host, s: Tracker, t: Tracker, v: View, reason: Reason, f: Tracker)
    requires Ticked(h, s, v, t) && Flushed(h, SetActive(t, false), v, reason, f)
    ensures Emits(h, s, f, v, Some(reason), s.walls + 1, false)
    ensures Took(h, s, f, [s.page.value.foregroundActive, false], 1, false)
  {
    hide ScrollPct;
  }

  lemma Blurs(h: Host, s: Tracker, v: View)
    requires Known(s)
    ensures Follows(h, s, v, Blurring, OnBlur(h, s, v))
  {
    hide ScrollPct, FlushEngagement, UpdateClock, Emits, Took, SnapOf;
    Ticks(h, s, v);
    var t := UpdateClock(h, s, v);
    Flushes(h, SetActive(t, false), v, Blur);
    if s.page.Some? && s.page.value.foregroundActive && v.allowed {
      TurnedAway(h, s, t, v, Blur, OnBlur(h, s, v));
    } else {
      ClockOnly(h, s, v, OnBlur(h, s, v), 1);
    }
  }

  lemma Hides(h: Host, s: Tracker, v: View, reason: Reason)
    requires Known(s)
    ensures Follows(h, s, v, Hiding(reason), OnTerminal(h, s, v, reason))
  {
    hide ScrollPct, FlushEngagement, UpdateClock, Emits, Took, SnapOf;
    Ticks(h, s, v);
    var t := UpdateClock(h, s, v);
    Flushes(h, SetActive(t, false), v, reason);
    if s.page.Some? && v.allowed {
      TurnedAway(h, s, t, v, reason, OnTerminal(h, s, v, reason));
    } else {
      ClockOnly(h, s, v, OnTerminal(h, s, v, reason), 1);
    }
  }

  /** A new page after what was emitted and read before. */
  lemma ThenOpened(h: Host, s: Tracker, a: Tracker, v: View, route: string, t: Tracker, reason: Option<Reason>, walls: nat, flags: seq<bool>, second: nat)
    requires Emits(h, s, a, v, reason, walls, false) && Took(h, s, a, flags, second, false) && Opened(h, a, v, route, t)
    ensures Emits(h, s, t, v, reason, walls, true) && Took(h, s, t, flags, second, true) && Fresh(t, v) && Under(t, route)
  {
    hide ScrollPct, Shown, SnapOf;
  }

  lemma OneFlush(h: Host, s: Tracker, v: View, reason: Reason, f: Tracker, second: nat)
    requires Flushed(h, s, v, reason, f)
    ensures Emits(h, s, f, v, Some(reason), s.walls + 1, false)
    ensures Took(h, s, f, [s.page.value.foregroundActive], second, false)
  {
    hide ScrollPct;
  }

  /** What neither emits nor reads the clock. */
  lemma Nothing(h: Host, s: Tracker, t: Tracker, v: View, walls: nat, second: nat)
    requires t.emitted == s.emitted && t.readings == s.readings
    ensures Emits(h, s, t, v, None, walls, false) && Took(h, s, t, [], second, false)
  {
  }

  /** `pageViewed`, when it opens a page. */
  lemma ViewsAnew(h: Host, s: Tracker, v: View)
    requires Known(s) && v.allowed && s.visitor.Some? && s.actor.Some? && s.lastRoute != Some(v.route)
    ensures var t := PageViewed(h, s, v);
            && Emits(h, s, t, v, if s.page.Some? then Some(RouteChange) else None, s.walls + 2, true)
            && Took(h, s, t, if s.page.Some? then [s.page.value.foregroundActive] else [], 1, true)
            && Fresh(t, v) && Under(t, v.route)
  {
    hide Emits, Took, Fresh, Opened, ScrollPct, FlushEngagement, StartPage, SessionId, SnapOf;
    var read := s.(walls := s.walls + 1);
    Flushes(h, read, v, RouteChange);
    var flushed := FlushEngagement(h, read, v, RouteChange);
    var active := if IsIdle(h, s) then RotateSession(h, flushed) else EnsureActiveSession(h, flushed);
    var routed := active.(lastRoute := Some(v.route));
    Opens(h, routed, v, v.route);
    if s.page.Some? {
      OneFlush(h, read, v, RouteChange, flushed, 1);
      Carried(h, read, flushed, s, routed, v, Some(RouteChange), s.walls + 2, [s.page.value.foregroundActive], 1);
      ThenOpened(h, s, routed, v, v.route, PageViewed(h, s, v), Some(RouteChange), s.walls + 2, [s.page.value.foregroundActive], 1);
    } else {
      Nothing(h, s, routed, v, s.walls + 2, 1);
      ThenOpened(h, s, routed, v, v.route, PageViewed(h, s, v), None, s.walls + 2, [], 1);
    }
  }

  /** Only events, readings, ticks and the page before are looked at. */
  lemma Carried(h: Host, s: Tracker, t: Tracker, s': Tracker, t': Tracker, v: View, reason: Option<Reason>, walls: nat, flags: seq<bool>, second: nat)
    requires Emits(h, s, t, v, reason, walls, false) && Took(h, s, t, flags, second, false)
    requires s'.emitted == s.emitted && s'.readings == s.readings && s'.ticks == s.ticks && s'.page == s.page
    requires t'.emitted == t.emitted && t'.readings == t.readings
    ensures Emits(h, s', t', v, reason, walls, false) && Took(h, s', t', flags, second, false)
  {
    hide SnapOf;
  }

  lemma Views(h: Host, s: Tracker, v: View)
    requires Known(s)
    ensures Follows(h, s, v, Navigating, PageViewed(h, s, v))
  {
    if Opening(h, s, v, Navigating) {
      ViewsAnew(h, s, v);
      hide Emits, Took, Fresh, PageViewed;
    } else {
      Nothing(h, s, s, v, s.walls + 2, 1);
      hide Emits, Took;
      assert PageViewed(h, s, v) == s;
    }
  }

  lemma Starts(h: Host, s: Tracker, v: View, saved: Saved)
    requires Known(s)
    ensures Follows(h, s, v, Starting(saved), Start(h, s, v, saved))
  {
    hide Emits, Took, Fresh, PageViewed, SessionId;
    if v.allowed && !s.started {
      var known := EnsureIdentity(h, s.(browser := true), saved).(started := true);
      if Moves(h, s, v, saved) {
        ViewsAnew(h, known, v);
        FromSame(h, s, known, Start(h, s, v, saved), v, if s.page.Some? then Some(RouteChange) else None, s.walls + 3,
                 if s.page.Some? then [s.page.value.foregroundActive] else [], 1, true);
      } else {
        assert PageViewed(h, known, v) == known by { Unmoved(h, known, v); }
        Nothing(h, s, known, v, s.walls + 3, 1);
      }
    } else {
      Nothing(h, s, s, v, s.walls + 3, 1);
    }
  }

  lemma Unmoved(h: Host, s: Tracker, v: View)
    requires s.lastRoute == Some(v.route)
    ensures PageViewed(h, s, v) == s
  {
  }

  lemma FromSame(h: Host, s: Tracker, a: Tracker, t: Tracker, v: View, reason: Option<Reason>, walls: nat, flags: seq<bool>, second: nat, anew: bool)
    requires Emits(h, a, t, v, reason, walls, anew) && Took(h, a, t, flags, second, anew)
    requires a.emitted == s.emitted && a.readings == s.readings && a.ticks == s.ticks && a.page == s.page
    ensures Emits(h, s, t, v, reason, walls, anew) && Took(h, s, t, flags, second, anew)
  {
    hide SnapOf, ViewOf;
  }

  // ----- handlers that may resume -----

  /** After one reading of the clock, an idle session is replaced together with its page. */
  lemma Resumes(h: Host, s: Tracker, v: View)
    requires Known(s)
    ensures var t, r := UpdateClock(h, s, v), ResumeAfterIdle(h, UpdateClock(h, s, v), v);
            var flags := if s.page.Some? then [s.page.value.foregroundActive] else [];
            && (MustResume(h, t) <==> Lapsed(h, s))
            && (if v.allowed && s.visitor.Some? && s.actor.Some? then
                  Emits(h, s, r, v, None, s.walls + 1, true) && Took(h, s, r, flags, 1, true) && Fresh(r, v) && Under(r, v.route)
                else Emits(h, s, r, v, None, s.walls + 1, false) && Took(h, s, r, flags, 1, false) && r.page.None?)
  {
    hide Fresh, ScrollPct, UpdateClock, PageViewed, SessionId, SnapOf, ViewOf;
    Ticks(h, s, v);
    var t := UpdateClock(h, s, v);
    var gone := RotateSession(h, t.(page := None, walls := t.walls + 1));
    if v.allowed && s.visitor.Some? && s.actor.Some? {
      ViewsAnew(h, gone, v);
    } else {
      assert PageViewed(h, gone, v) == gone by { NotViewed(h, gone, v); }
    }
  }

  lemma NotViewed(h: Host, s: Tracker, v: View)
    requires !(v.allowed && s.visitor.Some? && s.actor.Some?)
    ensures PageViewed(h, s, v) == s
  {
  }

  lemma Focuses(h: Host, s: Tracker, v: View)
    requires Known(s)
    ensures Follows(h, s, v, Focusing, OnFocus(h, s, v))
    ensures Follows(h, s, v, Resuming, OnResume(h, s, v))
  {
    hide ScrollPct, UpdateClock, ResumeAfterIdle, Fresh, MustResume, Emits, Took;
    Ticks(h, s, v);
    Resumes(h, s, v);
    if !Lapsed(h, s) {
      ClockOnly(h, s, v, OnFocus(h, s, v), 1);
      ClockOnly(h, s, v, OnResume(h, s, v), 1);
    }
  }

  lemma Changes(h: Host, s: Tracker, v: View)
    requires Known(s)
    ensures Follows(h, s, v, ChangingVisibility, OnVisibility(h, s, v))
  {
    hide ScrollPct, UpdateClock, ResumeAfterIdle, FlushEngagement, Fresh, MustResume, Emits, Took;
    Ticks(h, s, v);
    var t, u := UpdateClock(h, s, v), OnVisibility(h, s, v);
    if s.page.Some? && s.page.value.foregroundActive && !Shown(v) && v.allowed {
      Leaves(h, s, v);
    } else {
      Resumes(h, s, v);
      Flushes(h, SetActive(t, false), v, VisibilityHidden);
      if !(s.page.Some? && Shown(v) && Lapsed(h, s)) { ClockOnly(h, s, v, u, 1); }
    }
  }

  /** The page goes out of sight. */
  lemma Leaves(h: Host, s: Tracker, v: View)
    requires Known(s) && s.page.Some? && s.page.value.foregroundActive && !Shown(v) && v.allowed
    ensures Follows(h, s, v, ChangingVisibility, OnVisibility(h, s, v))
  {
    hide ScrollPct, UpdateClock, FlushEngagement, Emits, Took, SnapOf;
    Ticks(h, s, v);
    var t := UpdateClock(h, s, v);
    Flushes(h, SetActive(t, false), v, VisibilityHidden);
    TurnedAway(h, s, t, v, VisibilityHidden, OnVisibility(h, s, v));
  }

  // ----- the heartbeat -----

  lemma Beats(h: Host, s: Tracker, v: View)
    requires Known(s)
    ensures Follows(h, s, v, Beating, OnHeartbeat(h, s, v))
  {
    hide ScrollPct, UpdateClock, FlushEngagement, StartPage, Fresh, Emits, Took, SnapOf;
    Ticks(h, s, v);
    var t, u := UpdateClock(h, s, v), OnHeartbeat(h, s, v);
    var read := t.(ticks := t.ticks + 1);
    Flushes(h, read, v, Heartbeat);
    Flushes(h, read, v, DurationRollover);
    if s.page.Some? && s.page.value.foregroundActive && v.allowed {
      assert IsLong(h, t) <==> NearLimit(h, s.page.value, s.ticks);
      var reason := if IsLong(h, t) then DurationRollover else Heartbeat;
      var flushed := FlushEngagement(h, read, v, reason);
      TwoReads(h, s, t, v, reason, flushed);
      if IsLong(h, t) {
        var gone := flushed.(page := None);
        Opens(h, gone, v, s.page.value.who.route);
        Carried(h, s, flushed, s, gone, v, Some(reason), s.walls + 1, [true, true], 2);
        ThenOpened(h, s, gone, v, s.page.value.who.route, u, Some(reason), s.walls + 1, [true, true], 2);
      }
    } else {
      ClockOnly(h, s, v, u, 2);
    }
  }

  lemma TwoReads(h: Host, s: Tracker, t: Tracker, v: View, reason: Reason, f: Tracker)
    requires Known(s) && s.page.Some? && s.page.value.foregroundActive
    requires Ticked(h, s, v, t) && Flushed(h, t.(ticks := t.ticks + 1), v, reason, f)
    ensures Emits(h, s, f, v, Some(reason), s.walls + 1, false) && Took(h, s, f, [true, true], 2, false)
  {
    hide ScrollPct;
  }

  // ----- ends -----

  lemma Destroys(h: Host, s: Tracker, v: View)
    requires Known(s)
    ensures Follows(h, s, v, Destroying, Apply(h, s, v, Destroying))
  {
    hide ScrollPct, FlushEngagement, Emits, Took, SnapOf;
    Flushes(h, s, v, Destroy);
    var f, t := FlushEngagement(h, s, v, Destroy), Apply(h, s, v, Destroying);
    if s.page.Some? && v.allowed {
      OneFlush(h, s, v, Destroy, f, 1);
      Carried(h, s, f, s, t, v, Some(Destroy), s.walls + 1, [s.page.value.foregroundActive], 1);
    } else {
      Nothing(h, s, t, v, s.walls + 1, 1);
    }
  }

  /** A snapshot, and then what has no page. */
  lemma FlushThenAnew(h: Host, s: Tracker, f: Tracker, known: Tracker, v: View, t: Tracker)
    requires if s.page.Some? then Flushed(h, s, v, Destroy, f) else f.emitted == s.emitted && f.readings == s.readings && f.ticks == s.ticks
    requires known.emitted == f.emitted && known.readings == f.readings && known.ticks == f.ticks && known.page.None?
    requires Emits(h, known, t, v, None, known.walls + 2, true) && Took(h, known, t, [], 1, true)
    ensures Emits(h, s, t, v, if s.page.Some? then Some(Destroy) else None, s.walls + 1, true)
    ensures Took(h, s, t, if s.page.Some? then [s.page.value.foregroundActive] else [], 1, true)
  {
    hide ScrollPct, SnapOf, ViewOf;
  }

  lemma Resets(h: Host, s: Tracker, v: View)
    requires Known(s)
    ensures Follows(h, s, v, Resetting, Apply(h, s, v, Resetting))
  {
    hide ScrollPct, FlushEngagement, PageViewed, SessionId, Emits, Took, SnapOf, Fresh, Under;
    var t := Apply(h, s, v, Resetting);
    if s.browser && v.allowed {
      Flushes(h, s, v, Destroy);
      var flushed := FlushEngagement(h, s, v, Destroy);
      var cleared := flushed.(page := None, visitor := None, actor := None, session := None, lastRoute := None);
      var known := EnsureIdentity(h, cleared, Saved(None, None));
      ViewsAnew(h, known, v);
      FlushThenAnew(h, s, flushed, known, v, t);
    } else {
      Flushes(h, s, v, Destroy);
      Nothing(h, s, t, v, s.walls + 1, 1);
    }
  }

  /** What every handler emits, reads and leaves behind. */
  lemma StepFollows(h: Host, s: Tracker, v: View, step: Step)
    requires Known(s)
    ensures Follows(h, s, v, step, Apply(h, s, v, step))
  {
    hide Follows, Known, Start, PageViewed, OnVisibility, OnFocus, OnBlur, OnTerminal, OnResume, OnHeartbeat;
    match step
    case Starting(saved) => Starts(h, s, v, saved);
    case Navigating => Views(h, s, v);
    case ChangingVisibility => Changes(h, s, v);
    case Focusing => Focuses(h, s, v);
    case Resuming => Focuses(h, s, v);
    case Blurring => Blurs(h, s, v);
    case Hiding(reason) => Hides(h, s, v, reason);
    case Beating => Beats(h, s, v);
    case Resetting => Resets(h, s, v);
    case Destroying => Destroys(h, s, v);
    case _ => Simple(h, s, v, step);
  }

  /** On every run. */
  lemma RunFollows(h: Host, steps: seq<(Step, View)>)
    requires SoundHost(h) && steps != []
    ensures var last := |steps| - 1;
            Follows(h, Run(h, steps[..last]), steps[last].1, steps[last].0, Run(h, steps))
  {
    EngagementChain.RunSound(h, steps[..|steps| - 1]);
    StepFollows(h, Run(h, steps[..|steps| - 1]), steps[|steps| - 1].1, steps[|steps| - 1].0);
    hide Follows, Apply, SoundHost, EngagementChain.Logs, EngagementChain.Covers;
  }

  // ----- identity and session -----

  predicate Names(session: Option<SessionKey>, id: string) { session.Some? && session.value == id }

  /** A session that began in this step. */
  ghost predicate Renewed(h: Host, s: Tracker, t: Tracker) {
    exists n: nat :: s.created <= n < t.created && Names(t.session, "session:" + h.ids(n))
  }

  ghost predicate KeptOrRenewed(h: Host, s: Tracker, t: Tracker, kept: bool) {
    if kept then t.session == s.session else Renewed(h, s, t)
  }

  /** At the n-th reading of the wall clock, `last` is not longer ago than a session lasts. */
  predicate Within(h: Host, n: nat, last: real) { h.wall(n) - last <= h.sessionTimeout }

  /** Who the visitor is, and in which session, after a step. */
  ghost predicate Identifies(h: Host, s: Tracker, v: View, step: Step, t: Tracker) {
    match step
    case Starting(saved) =>
      if !v.allowed || s.started then t == s
      else
        && t.browser && t.started && t.actor == (if s.actor.Some? then s.actor else t.visitor)
        && (if saved.visitor.Some? && saved.visitor.value != "" then t.visitor == saved.visitor
            else t.visitor == Some("visitor:" + h.ids(s.created)))
        && (saved.session.None? || !Within(h, s.walls, saved.session.value.1) ==> Renewed(h, s, t))
        && (saved.session.Some? && Within(h, s.walls, saved.session.value.1) && s.lastRoute == Some(v.route) ==>
              t.session == Some(saved.session.value.0) && t.lastActivity == saved.session.value.1)
    case Navigating =>
      && t.visitor == s.visitor && t.actor == s.actor
      && (if !Opening(h, s, v, step) then t == s
          else
            && t.lastRoute == Some(v.route) && t.lastActivity == h.wall(s.walls + if s.page.Some? then 3 else 1)
            && KeptOrRenewed(h, s, t,
                 && s.session.Some? && Within(h, s.walls, s.lastActivity)
                 && if s.page.Some? then Within(h, s.walls + 3, h.wall(s.walls + 1)) else Within(h, s.walls + 1, s.lastActivity)))
    case Tracking =>
      if !(v.allowed && s.visitor.Some? && s.actor.Some?) then t == s
      else
        && t.visitor == s.visitor && t.actor == s.actor && t.lastActivity == h.wall(s.walls)
        && KeptOrRenewed(h, s, t, s.session.Some? && Within(h, s.walls, s.lastActivity))
        && t.lastRoute == (if s.session.Some? && Within(h, s.walls, s.lastActivity) then s.lastRoute else None)
    case Identifying(user) =>
      && t == s.(actor := t.actor)
      && t.actor == (if s.visitor.Some? && 1 <= |user| <= 200 then Some(user) else s.actor)
    case Resetting =>
      if !s.browser then t == s
      else if v.allowed then
        && Renewed(h, s, t) && t.actor == t.visitor && t.visitor == Some("visitor:" + h.ids(s.created))
      else t.visitor.None? && t.actor.None? && t.session.None? && t.lastRoute.None?
    case Clearing => t.visitor.None? && t.actor.None? && t.session.None? && t.lastRoute.None? && !t.started
    case ChangingVisibility =>
      && t.visitor == s.visitor && t.actor == s.actor
      && KeptOrRenewed(h, s, t, !(s.page.Some? && Shown(v) && Lapsed(h, s)))
    case Focusing => t.visitor == s.visitor && t.actor == s.actor && KeptOrRenewed(h, s, t, !Lapsed(h, s))
    case Resuming => t.visitor == s.visitor && t.actor == s.actor && KeptOrRenewed(h, s, t, !Lapsed(h, s))
    case _ =>
      && t.visitor == s.visitor && t.actor == s.actor && t.session == s.session
      && t.lastActivity == if Closing(h, s, v, step).Some? then h.wall(s.walls) else s.lastActivity
  }

  lemma ViewIdentifies(h: Host, s: Tracker, v: View)
    requires Known(s)
    ensures Identifies(h, s, v, Navigating, PageViewed(h, s, v))
    ensures s.created <= PageViewed(h, s, v).created
  {
    hide ScrollPct, FlushEngagement, StartPage;
    if Opening(h, s, v, Navigating) {
      var read := s.(walls := s.walls + 1);
      Flushes(h, read, v, RouteChange);
      var flushed := FlushEngagement(h, read, v, RouteChange);
      var active := if IsIdle(h, s) then RotateSession(h, flushed) else EnsureActiveSession(h, flushed);
      Opens(h, active.(lastRoute := Some(v.route)), v, v.route);
      assert active.session == flushed.session || Names(active.session, "session:" + h.ids(flushed.created));
    }
  }

  lemma LaterRenewed(h: Host, s: Tracker, a: Tracker, t: Tracker)
    requires s.created <= a.created <= t.created
    requires Renewed(h, a, t) || (t.session == a.session && Renewed(h, s, a))
    ensures Renewed(h, s, t)
  {
  }

  lemma ResumeIdentifies(h: Host, s: Tracker, v: View)
    requires Known(s)
    ensures var t := ResumeAfterIdle(h, UpdateClock(h, s, v), v);
            t.visitor == s.visitor && t.actor == s.actor && Renewed(h, s, t)
  {
    hide ScrollPct, UpdateClock, PageViewed;
    Ticks(h, s, v);
    var t := UpdateClock(h, s, v);
    var gone := RotateSession(h, t.(page := None, walls := t.walls + 1));
    assert Names(gone.session, "session:" + h.ids(s.created));
    ViewIdentifies(h, gone, v);
    LaterRenewed(h, s, gone, PageViewed(h, gone, v));
  }

  lemma StartIdentifies(h: Host, s: Tracker, v: View, saved: Saved)
    requires Known(s)
    ensures Identifies(h, s, v, Starting(saved), Start(h, s, v, saved))
  {
    hide ScrollPct, PageViewed;
    if v.allowed && !s.started {
      var known := EnsureIdentity(h, s.(browser := true), saved).(started := true);
      ViewIdentifies(h, known, v);
      if saved.session.None? || !Within(h, s.walls, saved.session.value.1) {
        assert Names(known.session, "session:" + h.ids(known.created - 1));
        LaterRenewed(h, s, known, PageViewed(h, known, v));
      }
      ViewKeeps(h, known, v);
    }
  }

  lemma ViewKeeps(h: Host, s: Tracker, v: View)
    ensures PageViewed(h, s, v).browser == s.browser && PageViewed(h, s, v).started == s.started
  {
    hide ScrollPct, PageId, SessionId, Round, ElapsedMs, Gap;
  }

  lemma ResetIdentifies(h: Host, s: Tracker, v: View)
    requires Known(s)
    ensures Identifies(h, s, v, Resetting, Apply(h, s, v, Resetting))
  {
    hide ScrollPct, FlushEngagement, PageViewed;
    Flushes(h, s, v, Destroy);
    if s.browser && v.allowed {
      var flushed := FlushEngagement(h, s, v, Destroy);
      var cleared := flushed.(page := None, visitor := None, actor := None, session := None, lastRoute := None);
      var known := EnsureIdentity(h, cleared, Saved(None, None));
      assert Names(known.session, "session:" + h.ids(s.created + 1));
      ViewIdentifies(h, known, v);
      LaterRenewed(h, s, known, PageViewed(h, known, v));
    }
  }

  lemma HandlersIdentify(h: Host, s: Tracker, v: View, reason: Reason)
    requires Known(s)
    ensures Identifies(h, s, v, ChangingVisibility, OnVisibility(h, s, v))
    ensures Identifies(h, s, v, Focusing, OnFocus(h, s, v)) && Identifies(h, s, v, Resuming, OnResume(h, s, v))
    ensures Identifies(h, s, v, Blurring, OnBlur(h, s, v)) && Identifies(h, s, v, Hiding(reason), OnTerminal(h, s, v, reason))
  {
    hide ScrollPct, UpdateClock, FlushEngagement, ResumeAfterIdle, SnapOf;
    Ticks(h, s, v);
    ResumeIdentifies(h, s, v);
    var away := SetActive(UpdateClock(h, s, v), false);
    Flushes(h, away, v, VisibilityHidden);
    Flushes(h, away, v, Blur);
    Flushes(h, away, v, reason);
  }

  lemma BeatIdentifies(h: Host, s: Tracker, v: View)
    requires Known(s)
    ensures Identifies(h, s, v, Beating, OnHeartbeat(h, s, v))
  {
    hide ScrollPct, UpdateClock, FlushEngagement, StartPage, SnapOf;
    Ticks(h, s, v);
    var t := UpdateClock(h, s, v);
    var read := t.(ticks := t.ticks + 1);
    Flushes(h, read, v, Heartbeat);
    Flushes(h, read, v, DurationRollover);
    if IsActive(t) && IsLong(h, t) && CanFlush(t, v) {
      Opens(h, FlushEngagement(h, read, v, DurationRollover).(page := None), v, s.page.value.who.route);
    }
  }

  lemma OtherIdentify(h: Host, s: Tracker, v: View, step: Step)
    requires Known(s) && (step in {Scrolling, Interacting, Tracking, Clearing, Destroying} || step.Identifying?)
    ensures Identifies(h, s, v, step, Apply(h, s, v, step))
  {
    hide ScrollPct, FlushEngagement;
    Flushes(h, s, v, Destroy);
    assert step.Tracking? ==> Names(RotateSession(h, s).session, "session:" + h.ids(s.created));
  }

  /** Who the visitor is, and in which session, on every run. */
  lemma StepIdentifies(h: Host, s: Tracker, v: View, step: Step)
    requires Known(s)
    ensures Identifies(h, s, v, step, Apply(h, s, v, step))
  {
    hide Identifies, Known, Start, PageViewed, OnVisibility, OnFocus, OnBlur, OnTerminal, OnResume, OnHeartbeat, ResetIdentity;
    match step
    case Starting(saved) => StartIdentifies(h, s, v, saved);
    case Navigating => ViewIdentifies(h, s, v);
    case Hiding(reason) => HandlersIdentify(h, s, v, reason);
    case ChangingVisibility => HandlersIdentify(h, s, v, Blur);
    case Focusing => HandlersIdentify(h, s, v, Blur);
    case Resuming => HandlersIdentify(h, s, v, Blur);
    case Blurring => HandlersIdentify(h, s, v, Blur);
    case Beating => BeatIdentifies(h, s, v);
    case Resetting => ResetIdentifies(h, s, v);
    case _ => OtherIdentify(h, s, v, step);
  }

  lemma RunIdentifies(h: Host, steps: seq<(Step, View)>)
    requires SoundHost(h) && steps != []
    ensures var last := |steps| - 1;
            Identifies(h, Run(h, steps[..last]), steps[last].1, steps[last].0, Run(h, steps))
  {
    EngagementChain.RunSound(h, steps[..|steps| - 1]);
    StepIdentifies(h, Run(h, steps[..|steps| - 1]), steps[|steps| - 1].1, steps[|steps| - 1].0);
    hide Identifies, Apply, SoundHost, EngagementChain.Logs, EngagementChain.Covers;
  }
}
