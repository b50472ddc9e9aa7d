/** The snapshots of every page view form a chain, on every run; the one with the highest sequence says it all. */
module EngagementChain {
  import opened Wrappers
  import opened Engagement

  /** The events of one page view, in the order they were emitted. */
  function PageLog(es: seq<Event>, id: string): seq<Event> {
    if es == [] then []
    else PageLog(es[..|es| - 1], id) + if es[|es| - 1].page == id then [es[|es| - 1]] else []
  }

  lemma LogAppend(es: seq<Event>, e: Event, id: string)
    ensures PageLog(es + [e], id) == PageLog(es, id) + if e.page == id then [e] else []
  {
    assert (es + [e])[..|es|] == es;
  }

  /** Every count of `a` is at most the same count of `b`. */
  predicate Within(a: Event, b: Event) {
    && a.Engaged? && b.Engaged?
    && a.foregroundMs <= b.foregroundMs && a.elapsedMs <= b.elapsedMs
    && a.maxScrollPct <= b.maxScrollPct && a.interactions <= b.interactions
  }

  /** A snapshot in its place: numbered, in bounds, and of the actor and session of the page view. */
  predicate InPlace(viewed: Event, e: Event, k: nat) {
    && e.Engaged? && e.sequence == k
    && 0 <= e.foregroundMs <= e.elapsedMs <= MAX_PAGE_DURATION_MS
    && 0 <= e.maxScrollPct <= 100
    && e.who.actor == viewed.who.actor && e.who.session == viewed.who.session
  }

  /** One `page.viewed`, then snapshots 1, 2, 3 and so on with growing counts. */
  predicate IsChain(log: seq<Event>) {
    && (log != [] ==> log[0].Viewed?)
    && (forall k :: 1 <= k < |log| ==> InPlace(log[0], log[k], k))
    && (forall j, k :: 1 <= j < k < |log| ==> Within(log[j], log[k]))
  }

  /** What the open page knows is at least what its last snapshot said. */
  predicate Covers(h: Host, s: Tracker, p: Page, log: seq<Event>) {
    && |log| == p.sequence + 1
    && log[0].who.actor == p.who.actor && log[0].who.session == p.who.session
    && 0 <= p.maxScrollPct <= 100 && 0.0 <= p.foregroundMs
    && (p.sequence > 0 ==>
          && log[p.sequence].Engaged?
          && log[p.sequence].foregroundMs <= Round(p.foregroundMs)
          && log[p.sequence].elapsedMs <= ElapsedMs(h, s, p)
          && log[p.sequence].maxScrollPct <= p.maxScrollPct
          && log[p.sequence].interactions <= p.interactions)
  }

  ghost predicate Made(h: Host, s: Tracker, id: string) {
    exists n: nat :: n < s.created && id == PageId(h, n)
  }

  ghost predicate Logs(h: Host, s: Tracker) {
    && (forall id :: IsChain(PageLog(s.emitted, id)))
    && (forall id :: PageLog(s.emitted, id) != [] ==> Made(h, s, id))
  }

  ghost predicate Sound(h: Host, s: Tracker) {
    && Logs(h, s)
    && (s.page.Some? ==> Identified(s) && Covers(h, s, s.page.value, PageLog(s.emitted, s.page.value.id)))
  }

  // ----- arithmetic -----

  lemma RoundMonotone(x: real, y: real)
    requires x <= y
    ensures Round(x) <= Round(y)
  {
  }

  lemma ElapsedGrows(h: Host, s: Tracker, t: Tracker, p: Page)
    requires SoundHost(h) && s.ticks <= t.ticks
    ensures ElapsedMs(h, s, p) <= ElapsedMs(h, t, p) <= MAX_PAGE_DURATION_MS && 0 <= ElapsedMs(h, s, p)
  {
    RoundMonotone(h.monotonic(s.ticks) - p.startedAt, h.monotonic(t.ticks) - p.startedAt);
  }

  // ----- what does not emit -----

  /** The same page view, later. */
  predicate Continues(p: Page, q: Page) {
    && q.id == p.id && q.who == p.who && q.startedAt == p.startedAt && q.sequence == p.sequence
    && p.foregroundMs <= q.foregroundMs && p.maxScrollPct <= q.maxScrollPct <= 100 && p.interactions <= q.interactions
  }

  lemma MadeGrows(h: Host, s: Tracker, t: Tracker)
    requires Logs(h, s) && s.emitted == t.emitted && s.created <= t.created
    ensures Logs(h, t)
  {
    hide PageLog, IsChain, PageId;
    forall id | PageLog(t.emitted, id) != [] ensures Made(h, t, id) {
      assert Made(h, s, id);
    }
  }

  lemma Quiet(h: Host, s: Tracker, t: Tracker)
    requires SoundHost(h) && Sound(h, s)
    requires t.emitted == s.emitted && s.created <= t.created && s.ticks <= t.ticks
    requires t.page.Some? ==> s.page.Some? && Identified(t) && Continues(s.page.value, t.page.value)
    ensures Sound(h, t)
  {
    hide PageLog, SoundHost, Logs, Round;
    MadeGrows(h, s, t);
    if t.page.Some? {
      ElapsedGrows(h, s, t, s.page.value);
      RoundMonotone(s.page.value.foregroundMs, t.page.value.foregroundMs);
      assert ElapsedMs(h, t, t.page.value) == ElapsedMs(h, t, s.page.value);
    }
  }

  lemma TickContinues(h: Host, s: Tracker, v: View, p: Page)
    requires 0 <= p.maxScrollPct <= 100
    ensures Continues(p, TickedPage(h, s, v, p))
  {
  }

  lemma ClockSound(h: Host, s: Tracker, v: View)
    requires SoundHost(h) && Sound(h, s)
    ensures Sound(h, UpdateClock(h, s, v))
  {
    hide SoundHost, PageLog, Logs, TickedPage;
    if s.page.Some? { TickContinues(h, s, v, s.page.value); }
    Quiet(h, s, UpdateClock(h, s, v));
  }

  // ----- emitting -----

  lemma CountedCovers(h: Host, s: Tracker, v: View)
    requires SoundHost(h) && Sound(h, s) && s.page.Some?
    ensures var c := Counted(h, s, v);
            && c.page.value == UpdateClock(h, s, v).page.value.(sequence := s.page.value.sequence + 1)
            && c.emitted == s.emitted && c.created == s.created && c.ticks == s.ticks + 1
            && Identified(c) && c.page.value.id == s.page.value.id
  {
  }

  /** The next snapshot extends the chain. */
  lemma SnapshotExtends(h: Host, s: Tracker, v: View, c: Tracker, log: seq<Event>, reason: Reason)
    requires SoundHost(h) && s.page.Some? && Covers(h, s, s.page.value, log) && IsChain(log)
    requires c == Counted(h, s, v)
    ensures var e := Snapshot(h, c, v, c.page.value, reason);
            && e.page == s.page.value.id && IsChain(log + [e])
            && Covers(h, c.(ticks := c.ticks + 1), c.page.value, log + [e])
  {
    var p := s.page.value;
    var q := c.page.value;
    var e := Snapshot(h, c, v, q, reason);
    hide SoundHost;
    TickContinues(h, s, v, p);
    hide TickedPage;
    assert Continues(p, q.(sequence := p.sequence));
    ElapsedGrows(h, s, c, p);
    ElapsedGrows(h, c, c.(ticks := c.ticks + 1), p);
    assert ElapsedMs(h, c, q) == ElapsedMs(h, c, p);
    assert ElapsedMs(h, c.(ticks := c.ticks + 1), q) == ElapsedMs(h, c.(ticks := c.ticks + 1), p);
    RoundMonotone(p.foregroundMs, q.foregroundMs);
    RoundMonotone(0.0, q.foregroundMs);
    hide Round, ElapsedMs;
    assert Round(0.0) == 0 by { RoundZero(); }
    assert InPlace(log[0], e, |log|);
    if p.sequence > 0 { assert Within(log[p.sequence], e); }
    forall j | 1 <= j < |log| ensures Within(log[j], e) {
      assert Within(log[p.sequence], e);
    }
  }

  lemma RoundZero()
    ensures Round(0.0) == 0
  {
  }

  lemma LogsAppend(h: Host, s: Tracker, t: Tracker, e: Event)
    requires Logs(h, s) && t.emitted == s.emitted + [e] && s.created <= t.created
    requires IsChain(PageLog(s.emitted, e.page) + [e]) && Made(h, t, e.page)
    ensures Logs(h, t)
  {
    hide PageLog, IsChain, PageId;
    forall id ensures IsChain(PageLog(t.emitted, id)) && (PageLog(t.emitted, id) != [] ==> Made(h, t, id)) {
      LogAppend(s.emitted, e, id);
      var before, after := PageLog(s.emitted, id), PageLog(t.emitted, id);
      assert id != e.page ==> after == before + [] == before;
      assert IsChain(before) && (before != [] ==> Made(h, s, id));
    }
  }

  lemma FlushSound(h: Host, s: Tracker, v: View, reason: Reason)
    requires SoundHost(h) && Sound(h, s)
    ensures Sound(h, FlushEngagement(h, s, v, reason))
  {
    if CanFlush(s, v) {
      var c := Counted(h, s, v);
      var p := s.page.value;
      var log := PageLog(s.emitted, p.id);
      CountedCovers(h, s, v);
      SnapshotExtends(h, s, v, c, log, reason);
      hide SoundHost, PageLog, Counted, Snapshot, Covers, IsChain, UpdateClock;
      var e := Snapshot(h, c, v, c.page.value, reason);
      var t := FlushEngagement(h, s, v, reason);
      assert t.emitted == s.emitted + [e];
      LogAppend(s.emitted, e, p.id);
      assert log != [] by { CoversNotEmpty(h, s, p, log); }
      assert Made(h, s, p.id);
      LogsAppend(h, s, t, e);
      assert Covers(h, t, t.page.value, log + [e]) by { CoversSameTicks(h, c.(ticks := c.ticks + 1), t, t.page.value, log + [e]); }
    }
  }

  lemma CoversNotEmpty(h: Host, s: Tracker, p: Page, log: seq<Event>)
    requires Covers(h, s, p, log)
    ensures log != []
  {
  }

  lemma CoversSameTicks(h: Host, s: Tracker, t: Tracker, p: Page, log: seq<Event>)
    requires Covers(h, s, p, log) && s.ticks == t.ticks
    ensures Covers(h, t, p, log)
  {
  }

  lemma PageIdsDiffer(h: Host, m: nat, n: nat)
    requires SoundHost(h) && m != n
    ensures PageId(h, m) != PageId(h, n)
  {
    assert h.ids(m) != h.ids(n);
    assert PageId(h, m)[5..] == h.ids(m) && PageId(h, n)[5..] == h.ids(n);
  }

  lemma NewPageId(h: Host, s: Tracker)
    requires SoundHost(h) && Logs(h, s)
    ensures PageLog(s.emitted, PageId(h, s.created)) == []
  {
    forall n: nat | n < s.created ensures PageId(h, n) != PageId(h, s.created) {
      PageIdsDiffer(h, n, s.created);
    }
    hide PageLog, PageId;
    assert !Made(h, s, PageId(h, s.created));
  }

  /** The page that `startPage` opens, and the event it emits. */
  lemma StartedPage(h: Host, s: Tracker, v: View, route: string)
    requires v.allowed && Identified(s)
    ensures var t := StartPage(h, s, v, route);
            && |t.emitted| == |s.emitted| + 1 && t.emitted == s.emitted + [t.emitted[|s.emitted|]]
            && t.emitted[|s.emitted|].Viewed? && t.emitted[|s.emitted|].page == PageId(h, s.created)
            && t.created == s.created + 1 && Identified(t)
            && t.page.Some? && t.page.value.id == PageId(h, s.created) && Covers(h, t, t.page.value, [t.emitted[|s.emitted|]])
  {
    hide PageId, Round;
  }

  lemma StartPageSound(h: Host, s: Tracker, v: View, route: string)
    requires SoundHost(h) && Sound(h, s) && v.allowed && s.visitor.Some?
    ensures Sound(h, StartPage(h, s, v, route))
  {
    if s.actor.Some? && s.session.Some? {
      NewPageId(h, s);
      StartedPage(h, s, v, route);
      hide SoundHost, PageLog, PageId, StartPage, Covers, IsChain, Logs;
      var t := StartPage(h, s, v, route);
      var id := PageId(h, s.created);
      var e := t.emitted[|s.emitted|];
      assert [] + [e] == [e];
      OneIsChain(e);
      assert Made(h, t, id);
      LogsAppend(h, s, t, e);
      LogAppend(s.emitted, e, id);
    }
  }

  lemma OneIsChain(e: Event)
    requires e.Viewed?
    ensures IsChain([e])
  {
  }

  // ----- handlers -----

  lemma RotateSound(h: Host, s: Tracker)
    requires SoundHost(h) && Sound(h, s)
    ensures Sound(h, RotateSession(h, s)) && Sound(h, EnsureActiveSession(h, s))
  {
    hide SoundHost, PageLog, Logs;
    Quiet(h, s, RotateSession(h, s));
    Quiet(h, s, EnsureActiveSession(h, s));
  }

  lemma PageViewedSound(h: Host, s: Tracker, v: View)
    requires SoundHost(h) && Sound(h, s)
    ensures Sound(h, PageViewed(h, s, v))
  {
    hide SoundHost, Sound, RotateSession, EnsureActiveSession, FlushEngagement, StartPage;
    if v.allowed && s.visitor.Some? && s.actor.Some? && s.lastRoute != Some(v.route) {
      var read := s.(walls := s.walls + 1);
      WallSound(h, s, read);
      FlushSound(h, read, v, RouteChange);
      var flushed := FlushEngagement(h, read, v, RouteChange);
      RotateSound(h, flushed);
      var active := if IsIdle(h, s) then RotateSession(h, flushed) else EnsureActiveSession(h, flushed);
      WallSound(h, active, active.(lastRoute := Some(v.route)));
      VisitorKept(h, read, v);
      VisitorRotated(h, flushed);
      StartPageSound(h, active.(lastRoute := Some(v.route)), v, v.route);
    }
  }

  lemma WallSound(h: Host, s: Tracker, t: Tracker)
    requires SoundHost(h) && Sound(h, s) && t == s.(walls := t.walls, lastRoute := t.lastRoute)
    ensures Sound(h, t)
  {
    hide SoundHost, PageLog, Logs;
    Quiet(h, s, t);
  }

  lemma VisitorKept(h: Host, s: Tracker, v: View)
    ensures FlushEngagement(h, s, v, RouteChange).visitor == s.visitor
  {
  }

  lemma VisitorRotated(h: Host, s: Tracker)
    ensures RotateSession(h, s).visitor == s.visitor && EnsureActiveSession(h, s).visitor == s.visitor
  {
  }

  lemma DroppedSound(h: Host, s: Tracker, t: Tracker)
    requires SoundHost(h) && Sound(h, s) && t.page.None?
    requires t.emitted == s.emitted && s.created <= t.created && s.ticks <= t.ticks
    ensures Sound(h, t)
  {
    hide SoundHost, PageLog, Logs, Covers;
    Quiet(h, s, t);
  }

  lemma ResumeSound(h: Host, s: Tracker, v: View)
    requires SoundHost(h) && Sound(h, s)
    ensures Sound(h, ResumeAfterIdle(h, s, v))
  {
    hide SoundHost, Sound, PageViewed, RotateSession;
    var gone := s.(page := None, walls := s.walls + 1);
    DroppedSound(h, s, gone);
    RotateSound(h, gone);
    PageViewedSound(h, RotateSession(h, gone), v);
  }

  lemma ReadSound(h: Host, s: Tracker)
    requires SoundHost(h) && Sound(h, s)
    ensures Sound(h, s.(ticks := s.ticks + 1))
    ensures s.page.Some? ==> s.visitor.Some?
  {
    hide SoundHost, PageLog, Logs, ElapsedMs;
    Quiet(h, s, s.(ticks := s.ticks + 1));
  }

  lemma FlushKeepsIdentity(h: Host, s: Tracker, v: View, reason: Reason)
    ensures var t := FlushEngagement(h, s, v, reason);
            t.visitor == s.visitor && t.actor == s.actor && t.session == s.session
  {
  }

  lemma RolloverSound(h: Host, s: Tracker, v: View)
    requires SoundHost(h) && Sound(h, s)
    ensures Sound(h, RolloverLongPage(h, s, v))
  {
    hide SoundHost, Sound, StartPage, FlushEngagement, IsLong;
    var read := s.(ticks := s.ticks + 1);
    ReadSound(h, s);
    if s.page.Some? && CanFlush(read, v) {
      FlushSound(h, read, v, DurationRollover);
      FlushKeepsIdentity(h, read, v, DurationRollover);
      var flushed := FlushEngagement(h, read, v, DurationRollover);
      DroppedSound(h, flushed, flushed.(page := None));
      StartPageSound(h, flushed.(page := None), v, s.page.value.who.route);
    }
  }

  /** Changes to the open page that only let its counts grow. */
  lemma PageOnly(h: Host, s: Tracker, t: Tracker)
    requires SoundHost(h) && Sound(h, s) && t == s.(page := t.page, walls := t.walls)
    requires t.page.Some? ==> s.page.Some? && Continues(s.page.value, t.page.value)
    ensures Sound(h, t)
  {
    hide SoundHost, PageLog, Logs;
    Quiet(h, s, t);
  }

  lemma SetActiveSound(h: Host, s: Tracker, active: bool, walls: nat)
    requires SoundHost(h) && Sound(h, s)
    ensures Sound(h, SetActive(s, active)) && Sound(h, SetActive(s.(walls := walls), active))
  {
    hide SoundHost, PageLog, Logs;
    PageOnly(h, s, SetActive(s, active));
    PageOnly(h, s, SetActive(s.(walls := walls), active));
  }

  lemma IdentitySound(h: Host, s: Tracker, saved: Saved)
    requires SoundHost(h) && Sound(h, s) && s.page.None?
    ensures Sound(h, EnsureIdentity(h, s, saved)) && EnsureIdentity(h, s, saved).page.None?
  {
    hide SoundHost, PageLog, Logs;
    Quiet(h, s, EnsureIdentity(h, s, saved));
  }

  /** Starting again keeps a page that is still open; its identity may change under it, but not be lost. */
  lemma IdentityUnderPage(h: Host, s: Tracker, saved: Saved)
    ensures var t := EnsureIdentity(h, s, saved);
            && t.emitted == s.emitted && t.page == s.page && s.created <= t.created && s.ticks == t.ticks && Identified(t)
  {
  }

  lemma StartSound(h: Host, s: Tracker, v: View, saved: Saved)
    requires SoundHost(h) && Sound(h, s)
    ensures Sound(h, Start(h, s, v, saved))
  {
    hide SoundHost, PageLog, Logs, PageViewed, EnsureIdentity, ElapsedMs;
    if v.allowed && !s.started {
      var known := EnsureIdentity(h, s.(browser := true), saved).(started := true);
      IdentityUnderPage(h, s.(browser := true), saved);
      Quiet(h, s, known);
      PageViewedSound(h, known, v);
    }
  }

  lemma ResetSound(h: Host, s: Tracker, v: View)
    requires SoundHost(h) && Sound(h, s)
    ensures Sound(h, ResetIdentity(h, s, v))
  {
    hide SoundHost, Sound, PageViewed, EnsureIdentity, FlushEngagement;
    FlushSound(h, s, v, Destroy);
    var flushed := FlushEngagement(h, s, v, Destroy);
    var cleared := flushed.(page := None, visitor := None, actor := None, session := None, lastRoute := None);
    DroppedSound(h, flushed, cleared);
    IdentitySound(h, cleared, Saved(None, None));
    PageViewedSound(h, EnsureIdentity(h, cleared, Saved(None, None)), v);
  }

  lemma HandlersSound(h: Host, s: Tracker, v: View, reason: Reason)
    requires SoundHost(h) && Sound(h, s)
    ensures Sound(h, OnVisibility(h, s, v)) && Sound(h, OnFocus(h, s, v)) && Sound(h, OnResume(h, s, v))
    ensures Sound(h, OnBlur(h, s, v)) && Sound(h, OnTerminal(h, s, v, reason))
  {
    hide SoundHost, Sound, UpdateClock, FlushEngagement, ResumeAfterIdle, SetActive, MustResume;
    var t := UpdateClock(h, s, v);
    ClockSound(h, s, v);
    SetActiveSound(h, t, false, t.walls);
    SetActiveSound(h, t, IsVisible(v) && v.focused, t.walls + 1);
    SetActiveSound(h, t, v.visibility == Visible, t.walls + 1);
    SetActiveSound(h, t, v.visibility == Visible && v.focused, t.walls + 1);
    FlushSound(h, SetActive(t, false), v, VisibilityHidden);
    FlushSound(h, SetActive(t, false), v, Blur);
    FlushSound(h, SetActive(t, false), v, reason);
    ResumeSound(h, t, v);
  }

  lemma HeartbeatSound(h: Host, s: Tracker, v: View)
    requires SoundHost(h) && Sound(h, s)
    ensures Sound(h, OnHeartbeat(h, s, v))
  {
    hide SoundHost, Sound, UpdateClock, FlushEngagement, RolloverLongPage, IsLong;
    ClockSound(h, s, v);
    RolloverSound(h, UpdateClock(h, s, v), v);
    FlushSound(h, RolloverLongPage(h, UpdateClock(h, s, v), v), v, Heartbeat);
  }

  lemma PointerSound(h: Host, s: Tracker, v: View, user: string)
    requires SoundHost(h) && Sound(h, s)
    ensures Sound(h, OnScroll(s, v)) && Sound(h, OnInteraction(s)) && Sound(h, Identify(s, user)) && Sound(h, Clear(s))
  {
    hide SoundHost, PageLog, Logs, ElapsedMs;
    PageOnly(h, s, OnScroll(s, v));
    PageOnly(h, s, OnInteraction(s));
    Quiet(h, s, Identify(s, user));
    Quiet(h, s, Clear(s));
  }

  lemma StepSound(h: Host, s: Tracker, v: View, step: Step)
    requires SoundHost(h) && Sound(h, s)
    ensures Sound(h, Apply(h, s, v, step))
  {
    hide SoundHost, Sound, Start, PageViewed, OnVisibility, OnFocus, OnResume, OnBlur, OnTerminal, OnHeartbeat, OnScroll,
      OnInteraction, Identify, Clear, ResetIdentity, FlushEngagement, EnsureActiveSession;
    match step
    case Starting(saved) => StartSound(h, s, v, saved);
    case Navigating => PageViewedSound(h, s, v);
    case Hiding(reason) => HandlersSound(h, s, v, reason);
    case Beating => HeartbeatSound(h, s, v);
    case Tracking => RotateSound(h, s);
    case Identifying(user) => PointerSound(h, s, v, user);
    case Resetting => ResetSound(h, s, v);
    case Destroying =>
      FlushSound(h, s, v, Destroy);
      var t := FlushEngagement(h, s, v, Destroy);
      DroppedSound(h, t, t.(page := None, started := false));
    case Scrolling => PointerSound(h, s, v, "");
    case Interacting => PointerSound(h, s, v, "");
    case Clearing => PointerSound(h, s, v, "");
    case _ => HandlersSound(h, s, v, Blur);
  }

  lemma {:induction false} RunSound(h: Host, steps: seq<(Step, View)>)
    requires SoundHost(h)
    ensures Sound(h, Run(h, steps))
  {
    if steps == [] {
      assert forall id :: PageLog([], id) == [];
    } else {
      hide SoundHost, Sound, Apply;
      RunSound(h, steps[..|steps| - 1]);
      StepSound(h, Run(h, steps[..|steps| - 1]), steps[|steps| - 1].1, steps[|steps| - 1].0);
    }
  }

  /**
   * On every run, for every page view id: one `page.viewed` first, then snapshots 1, 2, 3 and so
   * on with growing counts, foreground within elapsed within seven days, all under the actor and
   * session that the page view was opened with, whatever was identified or rotated meanwhile.
   */
  lemma SnapshotsFormChains(h: Host, steps: seq<(Step, View)>, id: string)
    requires SoundHost(h)
    ensures IsChain(PageLog(Run(h, steps).emitted, id))
  {
    RunSound(h, steps);
  }

  // ----- the highest sequence wins -----

  /** The snapshot with the highest sequence of what arrived: the first one ranked by the server. */
  function Latest(received: seq<Event>): (latest: Event)
    requires received != [] && forall e :: e in received ==> e.Engaged?
    ensures latest.Engaged?
  {
    if |received| == 1 then received[0]
    else
      var rest := Latest(received[1..]);
      if received[0].sequence >= rest.sequence then received[0] else rest
  }

  lemma {:induction false} LatestIsMaximal(received: seq<Event>)
    requires received != [] && forall e :: e in received ==> e.Engaged?
    ensures Latest(received) in received && forall e :: e in received ==> e.sequence <= Latest(received).sequence
  {
    if |received| > 1 {
      LatestIsMaximal(received[1..]);
      assert received == [received[0]] + received[1..];
    }
  }

  predicate FromLog(received: seq<Event>, log: seq<Event>) {
    forall e :: e in received ==> e.Engaged? && e in log
  }

  /**
   * Whatever subset of a page's snapshots arrives, in any order and any number of times: the one
   * with the highest sequence covers all that arrived, and if the last one is among them it is the
   * result.
   */
  lemma HighestSequenceWins(log: seq<Event>, received: seq<Event>)
    requires IsChain(log) && log != [] && received != [] && FromLog(received, log)
    ensures var latest := Latest(received);
            && (forall e :: e in received ==> e == latest || Within(e, latest))
            && (log[|log| - 1] in received ==> latest == log[|log| - 1])
  {
    LatestIsMaximal(received);
    var latest := Latest(received);
    hide Within;
    forall e | e in received ensures 1 <= e.sequence < |log| && log[e.sequence] == e {
      var k :| 0 <= k < |log| && log[k] == e;
      assert k != 0;
      assert InPlace(log[0], log[k], k);
    }
    assert log[latest.sequence] == latest;
  }

  /** Two receivers that both got the last snapshot agree, whatever else they lost, repeated or reordered. */
  lemma ReceiversAgree(log: seq<Event>, a: seq<Event>, b: seq<Event>)
    requires IsChain(log) && |log| > 1 && FromLog(a, log) && FromLog(b, log)
    requires log[|log| - 1] in a && log[|log| - 1] in b
    ensures Latest(a) == Latest(b)
  {
    HighestSequenceWins(log, a);
    HighestSequenceWins(log, b);
  }
}
