/** The closure of `createBrowserAnalytics` as an object: its variables are updated in place by every handler. */
module BrowserAnalytics {
  import opened Wrappers
  import opened Engagement

  class Analytics {
    const host: Host
    var browser: bool
    var started: bool
    var visitor: Option<string>
    var actor: Option<string>
    var session: Option<SessionKey>
    var lastActivity: real
    var lastRoute: Option<string>
    var page: Option<Page>
    var ticks: nat      // readings of the monotonic clock
    var walls: nat      // readings of the wall clock
    var created: nat    // ids created
    var emitted: seq<Event>
    ghost var readings: seq<Reading>

    /** The value the step functions work on. */
    ghost function Model(): Tracker
      reads this
    {
      Tracker(browser, started, visitor, actor, session, lastActivity, lastRoute, page, ticks, walls, created, emitted, readings)
    }

    constructor (h: Host)
      ensures Model() == FRESH_TRACKER && host == h
    {
      host := h;
      browser, started, visitor, actor, session := false, false, None, None, None;
      lastActivity, lastRoute, page := 0.0, None, None;
      ticks, walls, created, emitted := 0, 0, 0, [];
      readings := [];
    }

    method RotateNow()
      modifies this
      ensures Model() == RotateSession(host, old(Model()))
    {
      session := Some(SessionId(host, created));
      created := created + 1;
      lastActivity := host.wall(walls);
      walls := walls + 1;
      lastRoute := None;
    }

    method EnsureActive()
      modifies this
      ensures Model() == EnsureActiveSession(host, old(Model()))
    {
      var time := host.wall(walls);
      if session.None? || time - lastActivity > host.sessionTimeout {
        RotateNow();
        return;
      }
      lastActivity := time;
      walls := walls + 1;
    }

    method TickClock(v: View)
      modifies this
      ensures Model() == UpdateClock(host, old(Model()), v)
    {
      if page.None? { return; }
      var p := page.value;
      var time := host.monotonic(ticks);
      readings := readings + [Reading(p.id, time, p.foregroundActive)];
      var delta := MaxReal(0.0, MinReal(MAX_FOREGROUND_GAP_MS, time - p.lastTickAt));
      if p.foregroundActive { p := p.(foregroundMs := p.foregroundMs + delta); }
      p := p.(lastTickAt := time);
      p := p.(maxScrollPct := MaxInt(p.maxScrollPct, ScrollPct(v)));
      page := Some(p);
      ticks := ticks + 1;
    }

    method Capture(v: View, e: Event)
      modifies `emitted
      ensures Model() == Emit(old(Model()), v, e)
    {
      if !v.allowed || visitor.None? || actor.None? || session.None? { return; }
      emitted := emitted + [e];
    }

    method Flush(v: View, reason: Reason) returns (flushed: bool)
      modifies this
      ensures Model() == FlushEngagement(host, old(Model()), v, reason)
      ensures flushed == CanFlush(old(Model()), v)
    {
      hide TickedPage, Round;
      if page.None? || !v.allowed { return false; }
      TickClock(v);
      page := Some(page.value.(sequence := page.value.sequence + 1));
      lastActivity := host.wall(walls);
      walls := walls + 1;
      assert Model() == Counted(host, old(Model()), v);
      var p := page.value;
      var elapsed := MinInt(MAX_PAGE_DURATION_MS, MaxInt(0, Round(host.monotonic(ticks) - p.startedAt)));
      var e := Engaged(p.id, p.who, host.wall(walls), v.common, p.sequence, MinInt(Round(p.foregroundMs), elapsed), elapsed,
                       p.maxScrollPct, p.interactions, reason);
      assert e == Snapshot(host, Model(), v, p, reason);
      ticks, walls := ticks + 1, walls + 1;
      Capture(v, e);
      return true;
    }

    method OpenPage(v: View, route: string) returns (done: bool)
      modifies this
      ensures Model() == StartPage(host, old(Model()), v, route)
      ensures done == (old(actor).Some? && old(session).Some?)
    {
      if actor.None? || session.None? { return false; }
      var tick := host.monotonic(ticks);
      var who := Identity(actor.value, session.value, route);
      page := Some(Page(PageId(host, created), who, tick, tick, IsVisible(v) && v.focused, 0.0, ScrollPct(v), 0, 0));
      var e := Viewed(page.value.id, who.(route := v.route), host.wall(walls), v.common);
      readings := readings + [Reading(page.value.id, tick, false)];
      ticks, created, walls := ticks + 1, created + 1, walls + 1;
      Capture(v, e);
      return true;
    }

    method ViewPage(v: View)
      modifies this
      ensures Model() == PageViewed(host, old(Model()), v)
    {
      hide FlushEngagement, StartPage, RotateSession, EnsureActiveSession;
      if !v.allowed || visitor.None? || actor.None? { return; }
      if lastRoute == Some(v.route) { return; }
      var expired := session.None? || host.wall(walls) - lastActivity > host.sessionTimeout;
      walls := walls + 1;
      var flushed := Flush(v, RouteChange);
      if expired { RotateNow(); } else { EnsureActive(); }
      lastRoute := Some(v.route);
      var done := OpenPage(v, v.route);
    }

    method Resume(v: View) returns (resumed: bool)
      modifies this
      ensures resumed == MustResume(host, old(Model()))
      ensures Model() == if resumed then ResumeAfterIdle(host, old(Model()), v)
                         else if old(session).Some? then Checked(old(Model())) else old(Model())
    {
      hide PageViewed, RotateSession;
      if session.None? { return false; }
      if host.wall(walls) - lastActivity <= host.sessionTimeout {
        walls := walls + 1;
        return false;
      }
      page := None;
      walls := walls + 1;
      RotateNow();
      ViewPage(v);
      return true;
    }

    method Rollover(v: View) returns (rolled: bool)
      requires page.Some?
      modifies this
      ensures Model() == RolloverLongPage(host, old(Model()), v)
      ensures rolled ==> IsLong(host, old(Model())) && CanFlush(old(Model()), v)
      ensures !rolled && IsLong(host, old(Model())) && CanFlush(old(Model()), v) ==> old(actor).None? || old(session).None?
    {
      hide FlushEngagement, StartPage;
      var long := host.monotonic(ticks) - page.value.startedAt >= (MAX_PAGE_DURATION_MS - host.heartbeatMs) as real;
      ticks := ticks + 1;
      if !long { return false; }
      var route := page.value.who.route;
      ghost var before := Model();
      var flushed := Flush(v, DurationRollover);
      FlushKeeps(host, before, v);
      if !flushed { return false; }
      page := None;
      rolled := OpenPage(v, route);
    }

    /** One timer tick: roll a long page over, or send a snapshot of it. */
    method HeartbeatTick(v: View)
      requires page.Some? ==> actor.Some? && session.Some?
      modifies this
      ensures Model() == OnHeartbeat(host, old(Model()), v)
    {
      hide FlushEngagement, RolloverLongPage, IsLong, TickedPage;
      TickClock(v);
      if page.None? || !page.value.foregroundActive { return; }
      ghost var ticked := Model();
      assert ticked.actor == old(actor) && ticked.session == old(session);
      var rolled := Rollover(v);
      if !rolled {
        var flushed := Flush(v, Heartbeat);
      }
    }

    method IdentifyUser(user: string)
      modifies this
      ensures Model() == Identify(old(Model()), user)
    {
      if visitor.None? || user == "" || |user| > 200 { return; }
      actor := Some(user);
    }
  }

  lemma FlushKeeps(h: Host, s: Tracker, v: View)
    ensures var t := FlushEngagement(h, s, v, DurationRollover); t.actor == s.actor && t.session == s.session
    ensures !CanFlush(s, v) ==> FlushEngagement(h, s, v, DurationRollover) == s
  {
  }
}
