/** What the interaction queue keeps on every run: its bound, its order and its rate limit. */
module ExperienceQueue {
  import opened Wrappers
  import opened Sequences
  import opened ExperienceClient

  // ---------------------------------------------------------------------------
  // Queue bound and order
  // ---------------------------------------------------------------------------

  predicate Increasing(es: seq<Event>) {
    forall i, j :: 0 <= i < j < |es| ==> es[i].sequence < es[j].sequence
  }

  /** A batch that is non-empty, small enough, in order, and older than everything still pending. */
  ghost predicate GoodBatch(s: Session, b: Batch) {
    && 1 <= |b.events| <= MAX_BATCH_EVENTS
    && Increasing(b.events)
    && b.id < s.nextBatch
    && (forall e :: e in b.events ==> e in s.batchOf && s.batchOf[e] == b.id)
  }

  ghost predicate Holds(s: Session, b: Batch) {
    || b in s.retryBatches
    || s.inFlight == Some(b)
    || exists c :: c in s.calls && !c.Ended? && c.batch == b
  }

  ghost predicate Ordered(s: Session) {
    && Increasing(s.pending)
    && (forall e :: e in s.pending ==> e.sequence <= s.sequence && e !in s.batchOf)
    && (forall e, p :: e in s.batchOf && p in s.pending ==> e.sequence < p.sequence)
    && (forall e :: e in s.batchOf ==> e.sequence <= s.sequence)
    && (forall b :: Holds(s, b) ==> GoodBatch(s, b))
  }

  ghost predicate Bounded(cfg: Config, s: Session) {
    TotalQueued(s.pending, s.retryBatches) <= cfg.maxQueue
  }

  lemma {:induction false} SumSplits(bs: seq<Batch>, k: nat)
    requires k <= |bs|
    ensures SumEvents(bs) == SumEvents(bs[..k]) + SumEvents(bs[k..])
  {
    if k > 0 {
      SumSplits(bs[1..], k - 1);
      assert bs[1..][..k - 1] == bs[..k][1..] && bs[1..][k - 1..] == bs[k..];
    } else {
      assert bs[0..] == bs;
    }
  }

  /** Making room leaves a suffix of what was pending and a prefix of the retries, one below the cap. */
  lemma {:induction false} RoomMade(pending: seq<Event>, retryBatches: seq<Batch>, cap: nat) returns (i: nat, j: nat)
    requires cap >= 1
    ensures i <= |pending| && j <= |retryBatches|
    ensures MakeRoom(pending, retryBatches, cap) == (pending[i..], retryBatches[..j])
    ensures TotalQueued(pending[i..], retryBatches[..j]) < cap
    ensures j < |retryBatches| ==> i == |pending|
    decreases |pending| + |retryBatches|
  {
    if TotalQueued(pending, retryBatches) < cap {
      i, j := 0, |retryBatches|;
      assert retryBatches[..j] == retryBatches;
    } else if pending != [] {
      var i', j' := RoomMade(pending[1..], retryBatches, cap);
      i, j := i' + 1, j';
      assert pending[1..][i'..] == pending[i..];
    } else {
      var i', j' := RoomMade(pending, retryBatches[..|retryBatches| - 1], cap);
      i, j := i', j';
      assert retryBatches[..|retryBatches| - 1][..j] == retryBatches[..j];
    }
  }

  function Queued(s: Session, i: nat, j: nat, event: Event): Session
    requires i <= |s.pending| && j <= |s.retryBatches|
  {
    s.(pending := s.pending[i..] + [event], retryBatches := s.retryBatches[..j])
  }

  lemma QueuedOrdered(s: Session, i: nat, j: nat, event: Event)
    requires Ordered(s) && i <= |s.pending| && j <= |s.retryBatches| && event.sequence == s.sequence
    requires forall e :: e in s.pending || e in s.batchOf ==> e.sequence < event.sequence
    ensures Ordered(Queued(s, i, j, event))
  {
    var s' := Queued(s, i, j, event);
    forall e | e in s'.pending ensures e == event || e in s.pending {
    }
    forall b | Holds(s', b) ensures GoodBatch(s', b) {
      assert Holds(s, b);
      assert GoodBatch(s, b);
    }
  }

  lemma EnqueueKeeps(cfg: Config, s: Session, event: Event, now: int, allowed: bool)
    requires Usable(cfg) && Bounded(cfg, s) && Ordered(s) && event.sequence == s.sequence
    requires forall e :: e in s.pending || e in s.batchOf ==> e.sequence < event.sequence
    ensures Bounded(cfg, Enqueue(cfg, s, event, now, allowed))
    ensures Ordered(Enqueue(cfg, s, event, now, allowed))
  {
    var s' := Enqueue(cfg, s, event, now, allowed);
    if s.started && allowed && |Recent(s.acceptedAt, now)| < cfg.maxPerMinute {
      var i, j := RoomMade(s.pending, s.retryBatches, cfg.maxQueue);
      QueuedOrdered(s, i, j, event);
      OrderedFrame(Queued(s, i, j, event), s');
    } else {
      OrderedFrame(s, s');
    }
  }

  /** The clock fields take no part in the order of the queue. */
  lemma OrderedFrame(s: Session, s': Session)
    requires Ordered(s) && s' == s.(acceptedAt := s'.acceptedAt, history := s'.history)
    ensures Ordered(s')
  {
    forall b | Holds(s', b) ensures GoodBatch(s', b) {
      assert Holds(s, b);
      assert GoodBatch(s, b);
    }
  }

  lemma SignalKeeps(cfg: Config, s: Session, kind: string, now: int, allowed: bool)
    requires Usable(cfg) && Bounded(cfg, s) && Ordered(s)
    ensures Bounded(cfg, Signal(cfg, s, kind, now, allowed)) && Ordered(Signal(cfg, s, kind, now, allowed))
  {
    var s1 := s.(sequence := s.sequence + 1);
    forall b | Holds(s1, b) ensures GoodBatch(s1, b) {
      assert Holds(s, b);
      assert GoodBatch(s, b);
    }
    EnqueueKeeps(cfg, s1, Event(s.sequence + 1, kind), now, allowed);
  }

  /** Forming a batch from the oldest pending events. */
  function BatchFormed(s: Session, k: nat): Session
    requires k <= |s.pending|
  {
    s.(pending := s.pending[k..],
       nextBatch := s.nextBatch + 1,
       batchOf := Assigned(s.batchOf, s.pending[..k], s.nextBatch))
  }

  lemma FormedBatches(s: Session, k: nat)
    requires Ordered(s) && 1 <= k <= |s.pending| && k <= MAX_BATCH_EVENTS
    ensures forall b :: GoodBatch(s, b) ==> GoodBatch(BatchFormed(s, k), b)
    ensures GoodBatch(BatchFormed(s, k), Batch(s.nextBatch, s.pending[..k]))
    ensures forall e :: e in s.pending[..k] ==> e in s.pending
  {
    forall e | e in s.pending[..k] ensures e in s.pending {
    }
  }

  lemma PrefixOlder(es: seq<Event>, k: nat)
    requires Increasing(es) && k <= |es|
    ensures forall e, p :: e in es[..k] && p in es[k..] ==> e.sequence < p.sequence
    ensures forall e :: e in es[..k] || e in es[k..] ==> e in es
  {
    forall e, p | e in es[..k] && p in es[k..] ensures e.sequence < p.sequence {
      var i :| 0 <= i < k && es[..k][i] == e;
      var j :| 0 <= j < |es| - k && es[k..][j] == p;
      assert es[i] == e && es[k + j] == p;
    }
  }

  lemma FormedOrdered(s: Session, k: nat)
    requires Ordered(s) && 1 <= k <= |s.pending| && k <= MAX_BATCH_EVENTS
    ensures Ordered(BatchFormed(s, k))
  {
    var s' := BatchFormed(s, k);
    PrefixOlder(s.pending, k);
    FormedBatches(s, k);
    forall b | Holds(s', b) ensures GoodBatch(s', b) {
      assert Holds(s, b);
    }
    assert Increasing(s'.pending);
  }

  /** Taking the next batch removes it from the queue and leaves the rest in good order. */
  lemma NextBatchKeeps(cfg: Config, s: Session)
    requires Bounded(cfg, s) && Ordered(s)
    ensures Bounded(cfg, NextBatch(s).0) && Ordered(NextBatch(s).0)
    ensures NextBatch(s).1.Some? ==> GoodBatch(NextBatch(s).0, NextBatch(s).1.value)
  {
    if s.retryBatches != [] {
      var s' := s.(retryBatches := s.retryBatches[1..]);
      assert Holds(s, s.retryBatches[0]);
      forall b | Holds(s', b) ensures GoodBatch(s', b) {
        assert Holds(s, b);
        assert GoodBatch(s, b);
      }
      assert GoodBatch(s', s.retryBatches[0]);
    } else if s.pending != [] {
      FormedBatches(s, BatchTaken(s));
      FormedOrdered(s, BatchTaken(s));
      assert NextBatch(s).0 == BatchFormed(s, BatchTaken(s));
    }
  }

  /** Updating the record of calls and of the batch in flight, with batches that are in good order. */
  lemma Rebind(cfg: Config, s: Session, s': Session)
    requires Bounded(cfg, s) && Ordered(s)
    requires s' == s.(calls := s'.calls, inFlight := s'.inFlight, flushing := s'.flushing, started := s'.started)
    requires forall c :: c in s'.calls && !c.Ended? ==> c in s.calls || GoodBatch(s, c.batch)
    requires s'.inFlight.Some? ==> s'.inFlight == s.inFlight || GoodBatch(s, s'.inFlight.value)
    ensures Bounded(cfg, s') && Ordered(s')
  {
    forall b | Holds(s', b) ensures GoodBatch(s', b) {
      if !Holds(s, b) {
        assert GoodBatch(s, b);
      } else {
        assert GoodBatch(s, b);
      }
    }
  }

  lemma DrainKeeps(cfg: Config, s: Session, c: nat, explicit: bool)
    requires c < |s.calls| && Bounded(cfg, s) && Ordered(s)
    ensures Bounded(cfg, Drain(s, c, explicit)) && Ordered(Drain(s, c, explicit))
  {
    NextBatchKeeps(cfg, s);
    var (s', next) := NextBatch(s);
    Rebind(cfg, if !s.started && !explicit then s else s', Drain(s, c, explicit));
  }

  lemma FlushKeeps(cfg: Config, s: Session, keepalive: bool, allowed: bool)
    requires Bounded(cfg, s) && Ordered(s)
    ensures Bounded(cfg, Flush(s, keepalive, allowed)) && Ordered(Flush(s, keepalive, allowed))
  {
    if !allowed {
      ClearKeeps(cfg, s);
    } else if keepalive {
      NextBatchKeeps(cfg, s);
      var (s', next) := NextBatch(s);
      assert s.inFlight.Some? ==> Holds(s, s.inFlight.value);
      Rebind(cfg, if s.inFlight.Some? then s else s', Flush(s, keepalive, allowed));
    } else if !s.flushing {
      var s1 := s.(flushing := true, calls := s.calls + [Ended]);
      Rebind(cfg, s, s1);
      DrainKeeps(cfg, s1, |s.calls|, !s.started);
    }
  }

  lemma ClearKeeps(cfg: Config, s: Session)
    requires Bounded(cfg, s) && Ordered(s)
    ensures Bounded(cfg, ClearQueue(s)) && Ordered(ClearQueue(s))
  {
    forall b | Holds(ClearQueue(s), b) ensures GoodBatch(ClearQueue(s), b) {
      assert Holds(s, b);
      assert GoodBatch(s, b);
    }
  }

  lemma RequeueKeeps(cfg: Config, s: Session, b: Batch)
    requires Bounded(cfg, s) && Ordered(s) && CanRetry(cfg, s, b) && GoodBatch(s, b)
    ensures Bounded(cfg, Requeue(s, b)) && Ordered(Requeue(s, b))
  {
    SumSplits([b] + s.retryBatches, 1);
    assert SumEvents([b]) == |b.events|;
    forall x | Holds(Requeue(s, b), x) ensures GoodBatch(Requeue(s, b), x) {
      if x != b {
        assert Holds(s, x);
      }
      assert GoodBatch(s, x);
    }
  }

  /** The end of a call: the batch may go back to the front of the retries. */
  lemma EndKeeps(cfg: Config, s: Session, c: nat, requeued: bool, s': Session)
    requires c < |s.calls| && !s.calls[c].Ended? && Bounded(cfg, s) && Ordered(s)
    requires requeued ==> CanRetry(cfg, s, s.calls[c].batch)
    requires var kept := if requeued then Requeue(s, s.calls[c].batch) else s;
             s' == kept.(inFlight := s'.inFlight, flushing := s'.flushing, calls := s.calls[c := Ended])
             && (s'.inFlight == s.inFlight || s'.inFlight.None?)
    ensures Bounded(cfg, s') && Ordered(s')
  {
    var b := s.calls[c].batch;
    assert s.calls[c] in s.calls;
    assert Holds(s, b);
    if requeued {
      RequeueKeeps(cfg, s, b);
      Rebind(cfg, Requeue(s, b), s');
    } else {
      Rebind(cfg, s, s');
    }
  }

  lemma SettleKeeps(cfg: Config, s: Session, c: nat, outcome: Outcome)
    requires c < |s.calls| && !s.calls[c].Ended? && Bounded(cfg, s) && Ordered(s)
    ensures Bounded(cfg, Settle(cfg, s, c, outcome)) && Ordered(Settle(cfg, s, c, outcome))
  {
    var b := s.calls[c].batch;
    match s.calls[c]
    case Draining(_, explicit) =>
      if outcome == Delivered {
        Rebind(cfg, s, Landed(s, b));
        DrainKeeps(cfg, Landed(s, b), c, explicit);
      } else {
        EndKeeps(cfg, s, c, outcome == Retryable && CanRetry(cfg, s, b), Settle(cfg, s, c, outcome));
      }
    case Keepalive(_) =>
      EndKeeps(cfg, s, c, outcome == Retryable && s.inFlight != Some(b) && CanRetry(cfg, s, b), Settle(cfg, s, c, outcome));
  }

  lemma ApplyKeeps(cfg: Config, s: Session, step: Step)
    requires Usable(cfg) && Bounded(cfg, s) && Ordered(s)
    ensures Bounded(cfg, Apply(cfg, s, step)) && Ordered(Apply(cfg, s, step))
  {
    if Enabled(s, step) {
      match step
      case Signalling(kind, now, allowed) => SignalKeeps(cfg, s, kind, now, allowed);
      case Flushing(keepalive, allowed) => FlushKeeps(cfg, s, keepalive, allowed);
      case Settling(call, outcome) => SettleKeeps(cfg, s, call, outcome);
      case Starting(allowed) => Rebind(cfg, s, Start(s, allowed));
      case Stopping(allowed) =>
        Rebind(cfg, s, s.(started := false));
        ClearKeeps(cfg, s.(started := false));
    }
  }

  /**
   * On every run of signals, flushes, keepalive flushes, failures and retries: the queue never
   * exceeds its cap, pending events and every batch are strictly in capture order, and every
   * batch anywhere has 1 to 25 events.
   */
  lemma {:induction false} QueueStaysBounded(cfg: Config, steps: seq<Step>)
    requires Usable(cfg)
    ensures Bounded(cfg, Run(cfg, steps)) && Ordered(Run(cfg, steps))
  {
    if steps != [] {
      QueueStaysBounded(cfg, steps[..|steps| - 1]);
      ApplyKeeps(cfg, Run(cfg, steps[..|steps| - 1]), steps[|steps| - 1]);
    }
  }

  // ---------------------------------------------------------------------------
  // Rate limit
  // ---------------------------------------------------------------------------

  predicate Sorted(h: seq<int>) {
    forall i, j :: 0 <= i < j < |h| ==> h[i] <= h[j]
  }

  /** Any two accepted events `n` apart in the history are a minute apart in time. */
  predicate Spaced(h: seq<int>, n: nat) {
    forall i, j :: 0 <= i && j == i + n < |h| ==> h[j] - h[i] >= MINUTE_MS
  }

  /** The pruned list is the end of the whole history, and what was pruned is a minute old. */
  ghost predicate Paced(cfg: Config, s: Session, last: int) {
    var k := |s.history| - |s.acceptedAt|;
    && Sorted(s.history) && (forall t :: t in s.history ==> t <= last)
    && k >= 0 && s.acceptedAt == s.history[k..]
    && (forall i :: 0 <= i < k ==> s.history[i] <= last - MINUTE_MS)
    && Spaced(s.history, cfg.maxPerMinute)
  }

  lemma RecentHead(a: seq<int>, now: int)
    requires a != []
    ensures Recent(a, now) == (if a[0] > now - MINUTE_MS then [a[0]] else []) + Recent(a[1..], now)
  {
  }

  /** A suffix that starts at `a[k]` holds all of the recent times. */
  lemma {:induction false} RecentIsSuffix(a: seq<int>, now: int)
    requires Sorted(a)
    ensures |Recent(a, now)| <= |a| && Recent(a, now) == a[|a| - |Recent(a, now)|..]
    ensures forall i :: 0 <= i < |a| - |Recent(a, now)| ==> a[i] <= now - MINUTE_MS
  {
    hide Recent, Sorted;
    if a == [] {
      NoneRecent(now);
    } else {
      var rest := a[1..];
      SortedTail(a);
      RecentHead(a, now);
      RecentIsSuffix(rest, now);
      var r := Recent(rest, now);
      if a[0] > now - MINUTE_MS {
        assert |r| == |rest|;
        assert Recent(a, now) == [a[0]] + rest == a;
      } else {
        assert Recent(a, now) == [] + r == r;
        assert a[|a| - |r|..] == rest[|rest| - |r|..];
        assert forall i :: 0 < i < |a| ==> a[i] == rest[i - 1];
      }
    }
  }

  lemma NoneRecent(now: int)
    ensures Recent([], now) == []
  {
  }

  lemma SortedTail(a: seq<int>)
    requires Sorted(a) && a != []
    ensures Sorted(a[1..]) && (a[1..] != [] ==> a[0] <= a[1..][0])
  {
    assert forall i :: 0 <= i < |a[1..]| ==> a[1..][i] == a[i + 1];
  }

  lemma PrunedPaced(cfg: Config, s: Session, now: int, last: int)
    requires Paced(cfg, s, last) && last <= now
    ensures Paced(cfg, s.(acceptedAt := Recent(s.acceptedAt, now)), now)
  {
    hide Recent, Sorted, Spaced;
    var was, k := |s.history| - |s.acceptedAt|, |s.history| - |Recent(s.acceptedAt, now)|;
    SortedSuffix(s.history, was);
    RecentIsSuffix(s.acceptedAt, now);
    forall i | was <= i < k ensures s.history[i] <= now - MINUTE_MS {
      assert s.acceptedAt[i - was] == s.history[i];
    }
    assert Recent(s.acceptedAt, now) == s.history[k..];
  }

  lemma SortedSuffix(h: seq<int>, k: nat)
    requires Sorted(h) && k <= |h|
    ensures Sorted(h[k..])
  {
    assert forall i :: 0 <= i < |h[k..]| ==> h[k..][i] == h[k + i];
  }

  lemma SortedAppend(h: seq<int>, t: int)
    requires Sorted(h) && forall x :: x in h ==> x <= t
    ensures Sorted(h + [t])
  {
    forall i | 0 <= i < |h| ensures h[i] <= t {
      assert h[i] in h;
    }
  }

  lemma SpacedAppend(h: seq<int>, n: nat, t: int)
    requires n >= 1 && Spaced(h, n) && (|h| >= n ==> t - h[|h| - n] >= MINUTE_MS)
    ensures Spaced(h + [t], n)
  {
  }

  lemma AcceptPaced(cfg: Config, s: Session, now: int)
    requires Paced(cfg, s, now) && |s.acceptedAt| < cfg.maxPerMinute
    ensures Paced(cfg, s.(acceptedAt := s.acceptedAt + [now], history := s.history + [now]), now)
  {
    SortedAppend(s.history, now);
    SpacedAppend(s.history, cfg.maxPerMinute, now);
    hide Sorted, Spaced;
    var k := |s.history| - |s.acceptedAt|;
    assert (s.history + [now])[k..] == s.acceptedAt + [now];
  }

  predicate SameClock(s: Session, s': Session) {
    s'.history == s.history && s'.acceptedAt == s.acceptedAt
  }

  /** What a signal does to the recorded times: nothing, a prune, or a prune and one more time. */
  lemma SignalClock(cfg: Config, s: Session, kind: string, now: int, allowed: bool)
    requires Usable(cfg)
    ensures var s', pruned := Signal(cfg, s, kind, now, allowed), s.(acceptedAt := Recent(s.acceptedAt, now));
            if !s.started || !allowed then SameClock(s, s')
            else if |pruned.acceptedAt| >= cfg.maxPerMinute then SameClock(pruned, s')
            else SameClock(pruned.(acceptedAt := pruned.acceptedAt + [now], history := pruned.history + [now]), s')
  {
    hide MakeRoom, Recent;
  }

  lemma LaterPaced(cfg: Config, s: Session, last: int, now: int)
    requires Paced(cfg, s, last) && last <= now
    ensures Paced(cfg, s, now)
  {
    hide Sorted, Spaced;
  }

  lemma SignalPaced(cfg: Config, s: Session, kind: string, now: int, allowed: bool, last: int)
    requires Usable(cfg) && Paced(cfg, s, last) && last <= now
    ensures Paced(cfg, Signal(cfg, s, kind, now, allowed), now)
  {
    hide Paced, Signal, Recent;
    var pruned := s.(acceptedAt := Recent(s.acceptedAt, now));
    var s' := Signal(cfg, s, kind, now, allowed);
    SignalClock(cfg, s, kind, now, allowed);
    PrunedPaced(cfg, s, now, last);
    if !s.started || !allowed {
      LaterPaced(cfg, s, last, now);
      OtherPaced(cfg, s, s', now);
    } else if |pruned.acceptedAt| >= cfg.maxPerMinute {
      OtherPaced(cfg, pruned, s', now);
    } else {
      AcceptPaced(cfg, pruned, now);
      OtherPaced(cfg, pruned.(acceptedAt := pruned.acceptedAt + [now], history := pruned.history + [now]), s', now);
    }
  }

  lemma DrainClock(s: Session, c: nat, explicit: bool)
    requires c < |s.calls|
    ensures SameClock(s, Drain(s, c, explicit))
  {
    hide Assigned;
  }

  lemma FlushClock(s: Session, keepalive: bool, allowed: bool)
    ensures SameClock(s, Flush(s, keepalive, allowed))
  {
    DrainClock(s.(flushing := true, calls := s.calls + [Ended]), |s.calls|, !s.started);
    hide Drain, Assigned;
  }

  lemma SettleClock(cfg: Config, s: Session, c: nat, outcome: Outcome)
    requires c < |s.calls| && !s.calls[c].Ended?
    ensures SameClock(s, Settle(cfg, s, c, outcome))
  {
    if s.calls[c].Draining? {
      DrainClock(Landed(s, s.calls[c].batch), c, s.calls[c].explicit);
    }
    hide Drain, CanRetry;
  }

  lemma ClockUntouched(cfg: Config, s: Session, step: Step)
    requires Usable(cfg) && !step.Signalling?
    ensures SameClock(s, Apply(cfg, s, step))
  {
    hide Flush, Settle;
    if Enabled(s, step) {
      match step
      case Flushing(keepalive, allowed) => FlushClock(s, keepalive, allowed);
      case Settling(c, outcome) => SettleClock(cfg, s, c, outcome);
      case _ =>
    }
  }

  lemma OtherPaced(cfg: Config, s: Session, s': Session, last: int)
    requires Paced(cfg, s, last) && SameClock(s, s')
    ensures Paced(cfg, s', last)
  {
    hide Sorted, Spaced;
  }

  /** The clock the handlers read never goes back, and never passes `last`. */
  ghost predicate Clocked(steps: seq<Step>, last: int) {
    && (forall i :: 0 <= i < |steps| && steps[i].Signalling? ==> steps[i].now <= last)
    && (forall i, j :: 0 <= i < j < |steps| && steps[i].Signalling? && steps[j].Signalling? ==> steps[i].now <= steps[j].now)
  }

  lemma {:induction false} RunPaced(cfg: Config, steps: seq<Step>, last: int)
    requires Usable(cfg) && Clocked(steps, last)
    ensures Paced(cfg, Run(cfg, steps), last)
  {
    hide Signal;
    if steps != [] {
      var before, step := steps[..|steps| - 1], steps[|steps| - 1];
      if step.Signalling? {
        RunPaced(cfg, before, step.now);
        SignalPaced(cfg, Run(cfg, before), step.kind, step.now, step.allowed, step.now);
      } else {
        RunPaced(cfg, before, last);
        ClockUntouched(cfg, Run(cfg, before), step);
        OtherPaced(cfg, Run(cfg, before), Run(cfg, steps), last);
      }
    }
  }

  function InWindow(h: seq<int>, from: int): seq<int> {
    Select(h, (t: int) => from <= t < from + MINUTE_MS)
  }

  lemma {:induction false} WindowIsSlice(h: seq<int>, from: int) returns (a: nat, b: nat)
    requires Sorted(h)
    ensures a <= b <= |h| && |InWindow(h, from)| == b - a
    ensures forall i :: 0 <= i < a ==> h[i] < from
    ensures forall i :: a <= i < b ==> from <= h[i] < from + MINUTE_MS
  {
    if h == [] {
      a, b := 0, 0;
    } else {
      a, b := WindowIsSlice(h[1..], from);
      assert forall i :: 0 <= i < |h| - 1 ==> h[1..][i] == h[i + 1] && h[0] <= h[i + 1];
      if h[0] < from {
        a, b := a + 1, b + 1;
      } else if h[0] < from + MINUTE_MS {
        b := b + 1;
      } else {
        a, b := 0, 0;
      }
    }
  }

  /**
   * Rate limit over the whole run: with a clock that never goes back, every half-open window of
   * 60,000 ms holds at most `maxPerMinute` accepted events, although old times are pruned.
   */
  lemma EveryWindowLimited(cfg: Config, steps: seq<Step>, last: int, from: int)
    requires Usable(cfg) && Clocked(steps, last)
    ensures |InWindow(Run(cfg, steps).history, from)| <= cfg.maxPerMinute
  {
    RunPaced(cfg, steps, last);
    var h := Run(cfg, steps).history;
    var a, b := WindowIsSlice(h, from);
    assert a + cfg.maxPerMinute < |h| ==> h[a + cfg.maxPerMinute] - h[a] >= MINUTE_MS;
  }
}
