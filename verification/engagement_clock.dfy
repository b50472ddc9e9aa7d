/** What the counts of a snapshot mean: foreground is the time in the foreground, on every run. */
module EngagementClock {
  import opened Wrappers
  import opened Engagement

  // ----- time in the foreground -----

  /** The readings of one page, in order. */
  function ReadingsOf(rs: seq<Reading>, id: string): seq<Reading> {
    if rs == [] then []
    else ReadingsOf(rs[..|rs| - 1], id) + if rs[|rs| - 1].page == id then [rs[|rs| - 1]] else []
  }

  lemma ReadingsAppend(rs: seq<Reading>, r: Reading, id: string)
    ensures ReadingsOf(rs + [r], id) == ReadingsOf(rs, id) + if r.page == id then [r] else []
  {
    assert (rs + [r])[..|rs|] == rs;
  }

  /** The part of an interval between two readings that counts: at most 30 seconds. */
  function Counted30(from: real, to: real): real {
    if to < from then 0.0 else if to - from > 30_000.0 then 30_000.0 else to - from
  }

  /** The counted time of the intervals at whose end the page had been in the foreground. */
  function ActiveMs(rs: seq<Reading>): real {
    if |rs| < 2 then 0.0
    else ActiveMs(rs[..|rs| - 1])
         + if rs[|rs| - 1].active then Counted30(rs[|rs| - 2].time, rs[|rs| - 1].time) else 0.0
  }

  lemma ActiveAppend(rs: seq<Reading>, r: Reading)
    requires rs != []
    ensures ActiveMs(rs + [r]) == ActiveMs(rs) + if r.active then Counted30(rs[|rs| - 1].time, r.time) else 0.0
  {
    assert (rs + [r])[..|rs|] == rs;
  }

  /** Rounding goes to the nearest integer, and up from the middle. */
  lemma RoundIff(x: real, n: int)
    ensures Round(x) == n <==> n as real <= x + 0.5 < n as real + 1.0
  {
  }

  /** How far a document is scrolled, in percent; one that fits the window is seen in full. */
  lemma ScrollIff(v: View, pct: int)
    ensures v.height <= v.innerHeight ==> (ScrollPct(v) == pct <==> pct == 100)
    ensures v.height > v.innerHeight ==>
              var percent := v.scrollY / (v.height - v.innerHeight) as real * 100.0;
              (ScrollPct(v) == pct <==>
                 || (pct == 0 && percent < 0.5)
                 || (pct == 100 && 99.5 <= percent)
                 || (0 < pct < 100 && pct as real - 0.5 <= percent < pct as real + 0.5))
  {
    RoundIff(if v.height > v.innerHeight then v.scrollY / (v.height - v.innerHeight) as real * 100.0 else 0.0, pct);
  }

  // ----- the open page -----

  ghost predicate Made(h: Host, s: Tracker, id: string) {
    exists n: nat :: n < s.created && id == PageId(h, n)
  }

  /** The open page knows the time it was in the foreground, and its first and last reading. */
  ghost predicate Timed(h: Host, s: Tracker) {
    && (forall r :: r in s.readings ==> Made(h, s, r.page))
    && (s.page.Some? ==>
          var p, rs := s.page.value, ReadingsOf(s.readings, s.page.value.id);
          rs != [] && p.foregroundMs == ActiveMs(rs) && p.startedAt == rs[0].time && p.lastTickAt == rs[|rs| - 1].time)
  }

  /** The counts of a snapshot that was emitted on the way from `s` to `t`. */
  ghost predicate Measured(h: Host, s: Tracker, t: Tracker, e: Event)
    requires e.Engaged?
  {
    var rs := ReadingsOf(t.readings, e.page);
    && rs != []
    && e.foregroundMs == MinInt(Round(ActiveMs(rs)), e.elapsedMs)
    && exists n :: s.ticks <= n < t.ticks && e.elapsedMs == ElapsedAt(h.monotonic(n) - rs[0].time)
  }

  /** A duration in whole milliseconds, from none to seven days. */
  function ElapsedAt(duration: real): int {
    if Round(duration) < 0 then 0 else if Round(duration) > 7 * 24 * 3600 * 1000 then 7 * 24 * 3600 * 1000 else Round(duration)
  }

  /** Every snapshot emitted since `s` has the counts of its page. */
  ghost predicate AllMeasured(h: Host, s: Tracker, t: Tracker) {
    && s.emitted <= t.emitted && s.ticks <= t.ticks
    && forall i :: |s.emitted| <= i < |t.emitted| && t.emitted[i].Engaged? ==> Measured(h, s, t, t.emitted[i]) && Made(h, t, t.emitted[i].page)
  }

  // ----- what emits nothing -----

  /** Neither a reading nor an event; the open page keeps its clock. */
  predicate Still(s: Tracker, t: Tracker) {
    && t.emitted == s.emitted && t.readings == s.readings && s.created <= t.created && s.ticks <= t.ticks
    && (t.page.Some? ==> s.page.Some? && t.page.value.id == s.page.value.id && t.page.value.foregroundMs == s.page.value.foregroundMs
                         && t.page.value.startedAt == s.page.value.startedAt && t.page.value.lastTickAt == s.page.value.lastTickAt)
  }

  lemma MadeLater(h: Host, s: Tracker, t: Tracker, id: string)
    requires Made(h, s, id) && s.created <= t.created
    ensures Made(h, t, id)
  {
  }

  lemma StillTimed(h: Host, b: Tracker, s: Tracker, t: Tracker)
    requires Timed(h, s) && AllMeasured(h, b, s) && Still(s, t)
    ensures Timed(h, t) && AllMeasured(h, b, t)
  {
    hide PageId, ReadingsOf, ActiveMs, ElapsedAt, Round;
    forall r | r in t.readings ensures Made(h, t, r.page) { MadeLater(h, s, t, r.page); }
    forall i | |b.emitted| <= i < |t.emitted| && t.emitted[i].Engaged? ensures Measured(h, b, t, t.emitted[i]) && Made(h, t, t.emitted[i].page) {
      assert Measured(h, b, s, t.emitted[i]);
      MadeLater(h, s, t, t.emitted[i].page);
    }
  }

  // ----- the clock -----

  lemma ClockTimed(h: Host, b: Tracker, s: Tracker, v: View)
    requires Timed(h, s) && b.emitted == s.emitted && b.ticks <= s.ticks
    ensures var t := UpdateClock(h, s, v);
            && Timed(h, t) && t.emitted == b.emitted && b.ticks <= t.ticks && t.created == s.created
  {
    if s.page.Some? {
      var p := s.page.value;
      var r := Reading(p.id, h.monotonic(s.ticks), p.foregroundActive);
      ReadingsAppend(s.readings, r, p.id);
      ActiveAppend(ReadingsOf(s.readings, p.id), r);
      hide PageId, ReadingsOf, ActiveMs;
      var t := UpdateClock(h, s, v);
      assert t.readings == s.readings + [r];
      PageMade(h, s);
      forall x | x in t.readings ensures Made(h, t, x.page) {
        assert x in s.readings || x == r;
      }
    }
  }

  lemma {:induction false} OfReadings(rs: seq<Reading>, id: string)
    ensures ReadingsOf(rs, id) != [] <==> exists r :: r in rs && r.page == id
  {
    if rs != [] {
      OfReadings(rs[..|rs| - 1], id);
      assert rs == rs[..|rs| - 1] + [rs[|rs| - 1]];
    }
  }

  lemma PageMade(h: Host, s: Tracker)
    requires Timed(h, s) && s.page.Some?
    ensures Made(h, s, s.page.value.id)
  {
    OfReadings(s.readings, s.page.value.id);
    hide ReadingsOf, PageId, ActiveMs;
    var r :| r in s.readings && r.page == s.page.value.id;
  }

  lemma CountedTimed(h: Host, b: Tracker, s: Tracker, v: View)
    requires Timed(h, s) && b.emitted == s.emitted && b.ticks <= s.ticks && s.page.Some?
    ensures var t := Counted(h, s, v);
            && Timed(h, t) && t.emitted == b.emitted && b.ticks <= t.ticks && t.created == s.created && t.page.Some?
            && t.page.value.id == s.page.value.id
  {
    ClockTimed(h, b, s, v);
    hide ReadingsOf, PageId, ActiveMs;
  }

  /** What a flush leaves. */
  lemma FlushShape(h: Host, s: Tracker, v: View, reason: Reason)
    requires CanFlush(s, v)
    ensures var c, t := Counted(h, s, v), FlushEngagement(h, s, v, reason);
            && t.readings == c.readings && t.page == c.page && t.ticks == c.ticks + 1 && t.created == c.created
            && (t.emitted == c.emitted || t.emitted == c.emitted + [Snapshot(h, c, v, c.page.value, reason)])
  {
    hide Counted, Snapshot;
  }

  /** One snapshot more, measured. */
  lemma OneMeasured(h: Host, b: Tracker, c: Tracker, t: Tracker, e: Event)
    requires Timed(h, c) && c.page.Some? && b.emitted == c.emitted && b.ticks <= c.ticks
    requires t.readings == c.readings && t.page == c.page && t.ticks == c.ticks + 1 && t.created == c.created
    requires t.emitted == c.emitted || t.emitted == c.emitted + [e]
    requires e.Engaged? && e.page == c.page.value.id
    requires var rs := ReadingsOf(c.readings, e.page);
             && rs != [] && e.foregroundMs == MinInt(Round(ActiveMs(rs)), e.elapsedMs)
             && e.elapsedMs == ElapsedAt(h.monotonic(c.ticks) - rs[0].time)
    ensures Timed(h, t) && AllMeasured(h, b, t)
  {
    PageMade(h, c);
    hide ReadingsOf, PageId, ActiveMs, Round, ElapsedAt;
    MadeLater(h, c, t, e.page);
    assert Measured(h, b, t, e);
    forall r | r in t.readings ensures Made(h, t, r.page) { MadeLater(h, c, t, r.page); }
    forall i | |b.emitted| <= i < |t.emitted| && t.emitted[i].Engaged? ensures Measured(h, b, t, t.emitted[i]) && Made(h, t, t.emitted[i].page) {
      assert t.emitted[i] == e;
    }
  }

  /** The one snapshot that a flush emits. */
  lemma FlushTimed(h: Host, b: Tracker, s: Tracker, v: View, reason: Reason)
    requires Timed(h, s) && b.emitted == s.emitted && b.ticks <= s.ticks
    ensures Timed(h, FlushEngagement(h, s, v, reason)) && AllMeasured(h, b, FlushEngagement(h, s, v, reason))
  {
    if CanFlush(s, v) {
      CountedTimed(h, b, s, v);
      var c := Counted(h, s, v);
      SnapshotMeasured(h, c, v, reason);
      FlushShape(h, s, v, reason);
      hide *;
      OneMeasured(h, b, c, FlushEngagement(h, s, v, reason), Snapshot(h, c, v, c.page.value, reason));
    }
  }

  lemma SnapshotMeasured(h: Host, c: Tracker, v: View, reason: Reason)
    requires Timed(h, c) && c.page.Some?
    ensures var e, rs := Snapshot(h, c, v, c.page.value, reason), ReadingsOf(c.readings, c.page.value.id);
            && e.page == c.page.value.id && rs != []
            && e.foregroundMs == MinInt(Round(ActiveMs(rs)), e.elapsedMs)
            && e.elapsedMs == ElapsedAt(h.monotonic(c.ticks) - rs[0].time)
  {
    hide ReadingsOf, PageId, ActiveMs, Round;
  }

  // ----- new pages -----

  lemma NoReadings(h: Host, s: Tracker)
    requires SoundHost(h) && Timed(h, s)
    ensures ReadingsOf(s.readings, PageId(h, s.created)) == []
  {
    OfReadings(s.readings, PageId(h, s.created));
    hide ReadingsOf, ActiveMs;
    forall r | r in s.readings ensures r.page != PageId(h, s.created) {
      var n: nat :| n < s.created && r.page == PageId(h, n);
      IdsDiffer(h, n, s.created);
    }
  }

  lemma IdsDiffer(h: Host, m: nat, n: nat)
    requires SoundHost(h) && m != n
    ensures PageId(h, m) != PageId(h, n)
  {
    assert h.ids(m) != h.ids(n);
    assert PageId(h, m)[5..] == h.ids(m) && PageId(h, n)[5..] == h.ids(n);
  }

  lemma StartShape(h: Host, s: Tracker, v: View, route: string)
    requires s.actor.Some? && s.session.Some?
    ensures var t, r := StartPage(h, s, v, route), Reading(PageId(h, s.created), h.monotonic(s.ticks), false);
            && t.readings == s.readings + [r] && t.created == s.created + 1 && t.ticks == s.ticks + 1
            && t.page.Some? && t.page.value.id == r.page && t.page.value.foregroundMs == 0.0
            && t.page.value.startedAt == r.time && t.page.value.lastTickAt == r.time
            && s.emitted <= t.emitted && forall i :: |s.emitted| <= i < |t.emitted| ==> t.emitted[i].Viewed?
  {
    hide PageId;
  }

  /** A reading of a new page changes nothing for a snapshot of an old one. */
  lemma StillMeasured(h: Host, b: Tracker, s: Tracker, t: Tracker, e: Event, r: Reading)
    requires SoundHost(h) && e.Engaged? && Measured(h, b, s, e) && Made(h, s, e.page)
    requires t.readings == s.readings + [r] && r.page == PageId(h, s.created) && s.created <= t.created && s.ticks <= t.ticks
    ensures Measured(h, b, t, e) && Made(h, t, e.page)
  {
    OldPage(h, s, e.page);
    ReadingsAppend(s.readings, r, e.page);
    MadeLater(h, s, t, e.page);
    hide ReadingsOf, PageId, ActiveMs, Round, ElapsedAt, SoundHost, Made;
    assert ReadingsOf(s.readings, e.page) + [] == ReadingsOf(s.readings, e.page);
  }

  lemma AllStillMeasured(h: Host, b: Tracker, s: Tracker, t: Tracker, r: Reading)
    requires SoundHost(h) && AllMeasured(h, b, s)
    requires t.readings == s.readings + [r] && r.page == PageId(h, s.created) && s.created <= t.created && s.ticks <= t.ticks
    requires s.emitted <= t.emitted && forall i :: |s.emitted| <= i < |t.emitted| ==> t.emitted[i].Viewed?
    ensures AllMeasured(h, b, t)
  {
    hide Measured, Made, SoundHost, PageId;
    forall i | |b.emitted| <= i < |t.emitted| && t.emitted[i].Engaged? ensures Measured(h, b, t, t.emitted[i]) && Made(h, t, t.emitted[i].page) {
      assert t.emitted[i] == s.emitted[i];
      StillMeasured(h, b, s, t, s.emitted[i], r);
    }
  }

  lemma StartTimed(h: Host, b: Tracker, s: Tracker, v: View, route: string)
    requires SoundHost(h) && Timed(h, s) && AllMeasured(h, b, s)
    ensures Timed(h, StartPage(h, s, v, route)) && AllMeasured(h, b, StartPage(h, s, v, route))
  {
    if s.actor.Some? && s.session.Some? {
      NoReadings(h, s);
      StartShape(h, s, v, route);
      var t, r := StartPage(h, s, v, route), Reading(PageId(h, s.created), h.monotonic(s.ticks), false);
      ReadingsAppend(s.readings, r, r.page);
      AllStillMeasured(h, b, s, t, r);
      assert ActiveMs([r]) == 0.0;
      hide ReadingsOf, PageId, ActiveMs, StartPage, Round, ElapsedAt, SoundHost, AllMeasured;
      assert [] + [r] == [r];
      forall x | x in t.readings ensures Made(h, t, x.page) {
        if x in s.readings { MadeLater(h, s, t, x.page); }
      }
    }
  }

  lemma OldPage(h: Host, s: Tracker, id: string)
    requires SoundHost(h) && Made(h, s, id)
    ensures id != PageId(h, s.created)
  {
    hide PageId, SoundHost;
    var n: nat :| n < s.created && id == PageId(h, n);
    IdsDiffer(h, n, s.created);
  }

  // ----- handlers -----

  /** From a state that emitted nothing yet. */
  ghost predicate Ready(h: Host, b: Tracker, s: Tracker) {
    Timed(h, s) && s.emitted == b.emitted && b.ticks <= s.ticks
  }

  lemma ReadyMeasured(h: Host, b: Tracker, s: Tracker)
    requires Ready(h, b, s)
    ensures AllMeasured(h, b, s)
  {
  }

  lemma StillReady(h: Host, b: Tracker, s: Tracker, t: Tracker)
    requires Ready(h, b, s) && Still(s, t)
    ensures Ready(h, b, t)
  {
    hide ReadingsOf, ActiveMs;
    StillTimed(h, b, s, t);
  }

  ghost predicate Done(h: Host, b: Tracker, t: Tracker) {
    Timed(h, t) && AllMeasured(h, b, t)
  }

  lemma StillDone(h: Host, b: Tracker, s: Tracker, t: Tracker)
    requires Done(h, b, s) && Still(s, t)
    ensures Done(h, b, t)
  {
    hide Timed, AllMeasured, Still;
    StillTimed(h, b, s, t);
  }

  lemma RotateStill(h: Host, s: Tracker)
    ensures Still(s, RotateSession(h, s)) && Still(s, EnsureActiveSession(h, s))
  {
  }

  lemma PageViewedDone(h: Host, b: Tracker, s: Tracker, v: View)
    requires SoundHost(h) && Ready(h, b, s)
    ensures Done(h, b, PageViewed(h, s, v))
  {
    hide SoundHost, Timed, AllMeasured, RotateSession, EnsureActiveSession, FlushEngagement, StartPage;
    ReadyMeasured(h, b, s);
    if v.allowed && s.visitor.Some? && s.actor.Some? && s.lastRoute != Some(v.route) {
      var read := s.(walls := s.walls + 1);
      StillReady(h, b, s, read);
      FlushTimed(h, b, read, v, RouteChange);
      var flushed := FlushEngagement(h, read, v, RouteChange);
      RotateStill(h, flushed);
      var active := if IsIdle(h, s) then RotateSession(h, flushed) else EnsureActiveSession(h, flushed);
      StillDone(h, b, flushed, active);
      StillDone(h, b, active, active.(lastRoute := Some(v.route)));
      StartTimed(h, b, active.(lastRoute := Some(v.route)), v, v.route);
    }
  }

  lemma ResumeDone(h: Host, b: Tracker, s: Tracker, v: View)
    requires SoundHost(h) && Ready(h, b, s)
    ensures Done(h, b, ResumeAfterIdle(h, s, v))
  {
    hide SoundHost, Ready, RotateSession, PageViewed;
    var gone := s.(page := None, walls := s.walls + 1);
    StillReady(h, b, s, gone);
    RotateStill(h, gone);
    StillReady(h, b, gone, RotateSession(h, gone));
    PageViewedDone(h, b, RotateSession(h, gone), v);
  }

  lemma FlushDone(h: Host, b: Tracker, s: Tracker, v: View, reason: Reason)
    requires Ready(h, b, s)
    ensures Done(h, b, FlushEngagement(h, s, v, reason))
  {
    FlushTimed(h, b, s, v, reason);
  }

  lemma RolloverDone(h: Host, b: Tracker, s: Tracker, v: View)
    requires SoundHost(h) && Ready(h, b, s)
    ensures IsLong(h, s) && CanFlush(s, v) ==> Done(h, b, RolloverLongPage(h, s, v))
    ensures !(IsLong(h, s) && CanFlush(s, v)) ==> Ready(h, b, RolloverLongPage(h, s, v))
  {
    hide SoundHost, Ready, FlushEngagement, StartPage, IsLong, Done;
    var read := s.(ticks := s.ticks + 1);
    StillReady(h, b, s, read);
    if IsLong(h, s) && CanFlush(s, v) {
      FlushDone(h, b, read, v, DurationRollover);
      var flushed := FlushEngagement(h, read, v, DurationRollover);
      StillDone(h, b, flushed, flushed.(page := None));
      DoneStart(h, b, flushed.(page := None), v, s.page.value.who.route);
    }
  }

  lemma DoneStart(h: Host, b: Tracker, s: Tracker, v: View, route: string)
    requires SoundHost(h) && Done(h, b, s)
    ensures Done(h, b, StartPage(h, s, v, route))
  {
    StartTimed(h, b, s, v, route);
  }

  lemma ReadyDone(h: Host, b: Tracker, s: Tracker)
    requires Ready(h, b, s)
    ensures Done(h, b, s)
  {
    ReadyMeasured(h, b, s);
  }

  lemma ClockReady(h: Host, b: Tracker, s: Tracker, v: View)
    requires Ready(h, b, s)
    ensures Ready(h, b, UpdateClock(h, s, v))
  {
    ClockTimed(h, b, s, v);
  }

  lemma ActiveReady(h: Host, b: Tracker, s: Tracker, active: bool)
    requires Ready(h, b, s)
    ensures Ready(h, b, SetActive(s, active)) && Ready(h, b, SetActive(Checked(s), active))
  {
    hide Ready;
    StillReady(h, b, s, SetActive(s, active));
    StillReady(h, b, s, SetActive(Checked(s), active));
  }

  lemma HandlersDone(h: Host, b: Tracker, s: Tracker, v: View, reason: Reason)
    requires SoundHost(h) && Ready(h, b, s)
    ensures Done(h, b, OnVisibility(h, s, v)) && Done(h, b, OnFocus(h, s, v)) && Done(h, b, OnResume(h, s, v))
    ensures Done(h, b, OnBlur(h, s, v)) && Done(h, b, OnTerminal(h, s, v, reason)) && Done(h, b, OnHeartbeat(h, s, v))
  {
    hide SoundHost, Ready, Done, UpdateClock, FlushEngagement, ResumeAfterIdle, SetActive, MustResume, RolloverLongPage, IsLong, Checked, IsVisible;
    var t := UpdateClock(h, s, v);
    ClockReady(h, b, s, v);
    ReadyDone(h, b, t);
    ResumeDone(h, b, t, v);
    forall active: bool ensures Done(h, b, SetActive(Checked(t), active)) {
      ActiveReady(h, b, t, active);
      ReadyDone(h, b, SetActive(Checked(t), active));
    }
    ActiveReady(h, b, t, false);
    FlushDone(h, b, SetActive(t, false), v, VisibilityHidden);
    FlushDone(h, b, SetActive(t, false), v, Blur);
    FlushDone(h, b, SetActive(t, false), v, reason);
    RolloverDone(h, b, t, v);
    if !(IsLong(h, t) && CanFlush(t, v)) {
      FlushDone(h, b, RolloverLongPage(h, t, v), v, Heartbeat);
    }
  }

  lemma OtherDone(h: Host, s: Tracker, t: Tracker)
    requires Timed(h, s) && Still(s, t)
    ensures Done(h, s, t)
  {
    hide Timed, Still;
    StillReady(h, s, s, t);
    ReadyDone(h, s, t);
  }

  lemma IdentityStill(h: Host, s: Tracker, saved: Saved)
    ensures Still(s, EnsureIdentity(h, s, saved))
  {
  }

  /** With no page open there is nothing to close, whatever was emitted before. */
  lemma NoPageDone(h: Host, b: Tracker, s: Tracker, v: View)
    requires SoundHost(h) && Done(h, b, s) && s.page.None?
    ensures Done(h, b, PageViewed(h, s, v))
  {
    hide SoundHost, Done, RotateSession, EnsureActiveSession, StartPage;
    if v.allowed && s.visitor.Some? && s.actor.Some? && s.lastRoute != Some(v.route) {
      var read := s.(walls := s.walls + 1);
      StillDone(h, b, s, read);
      RotateStill(h, read);
      var active := if IsIdle(h, s) then RotateSession(h, read) else EnsureActiveSession(h, read);
      StillDone(h, b, read, active);
      StillDone(h, b, active, active.(lastRoute := Some(v.route)));
      DoneStart(h, b, active.(lastRoute := Some(v.route)), v, v.route);
    }
  }

  lemma ResetDone(h: Host, b: Tracker, s: Tracker, v: View)
    requires SoundHost(h) && Ready(h, b, s)
    ensures Done(h, b, ResetIdentity(h, s, v))
  {
    hide SoundHost, Done, Ready, FlushEngagement, PageViewed, EnsureIdentity;
    FlushDone(h, b, s, v, Destroy);
    var flushed := FlushEngagement(h, s, v, Destroy);
    var cleared := flushed.(page := None, visitor := None, actor := None, session := None, lastRoute := None);
    StillDone(h, b, flushed, cleared);
    IdentityStill(h, cleared, Saved(None, None));
    var known := EnsureIdentity(h, cleared, Saved(None, None));
    StillDone(h, b, cleared, known);
    NoPageDone(h, b, known, v);
  }

  lemma StepDone(h: Host, s: Tracker, v: View, step: Step)
    requires SoundHost(h) && Timed(h, s)
    ensures Done(h, s, Apply(h, s, v, step))
  {
    assert Ready(h, s, s);
    ReadyDone(h, s, s);
    hide SoundHost, Timed, Ready, Done, PageViewed, FlushEngagement, EnsureIdentity, EnsureActiveSession,
         OnVisibility, OnFocus, OnResume, OnBlur, OnTerminal, OnHeartbeat;
    match step
    case Starting(saved) =>
      if v.allowed && !s.started {
        var known := EnsureIdentity(h, s.(browser := true), saved).(started := true);
        IdentityStill(h, s.(browser := true), saved);
        StillReady(h, s, s, known);
        PageViewedDone(h, s, known, v);
      }
    case Navigating => PageViewedDone(h, s, s, v);
    case Hiding(reason) => HandlersDone(h, s, s, v, reason);
    case Tracking => RotateStill(h, s); OtherDone(h, s, EnsureActiveSession(h, s));
    case Identifying(user) => OtherDone(h, s, Identify(s, user));
    case Resetting =>
      ResetDone(h, s, s, v);
    case Destroying =>
      FlushDone(h, s, s, v, Destroy);
      var t := FlushEngagement(h, s, v, Destroy);
      StillDone(h, s, t, t.(page := None, started := false));
    case Scrolling => OtherDone(h, s, OnScroll(s, v));
    case Interacting => OtherDone(h, s, OnInteraction(s));
    case Clearing => OtherDone(h, s, Clear(s));
    case _ => HandlersDone(h, s, s, v, Blur);
  }

  // ----- runs -----

  lemma {:induction false} RunTimed(h: Host, steps: seq<(Step, View)>)
    requires SoundHost(h)
    ensures Timed(h, Run(h, steps))
  {
    if steps == [] {
      assert FRESH_TRACKER.readings == [];
    } else {
      var last := |steps| - 1;
      RunTimed(h, steps[..last]);
      StepDone(h, Run(h, steps[..last]), steps[last].1, steps[last].0);
      hide SoundHost, Timed, AllMeasured, Apply;
    }
  }

  /** On every run: each snapshot of the last step says the time its page was in the foreground, cut at the elapsed time. */
  lemma SnapshotsMeasureForeground(h: Host, steps: seq<(Step, View)>)
    requires SoundHost(h) && steps != []
    ensures AllMeasured(h, Run(h, steps[..|steps| - 1]), Run(h, steps))
  {
    RunTimed(h, steps[..|steps| - 1]);
    StepDone(h, Run(h, steps[..|steps| - 1]), steps[|steps| - 1].1, steps[|steps| - 1].0);
    hide SoundHost, Timed, AllMeasured, Apply;
  }
}
