/** When a batch that was already delivered is queued again: the cost of sharing the batch in flight with a keepalive flush. */
module ExperienceRequeue {
  import opened Wrappers
  import opened ExperienceClient
  import opened ExperienceQueue

  // ----- where a batch is -----

  function Count(condition: bool): nat { if condition then 1 else 0 }

  function HeldBy(c: Call, b: Batch): nat { Count(!c.Ended? && c.batch == b) }

  /** The open calls of a batch. */
  function OpenCalls(calls: seq<Call>, b: Batch): nat {
    if calls == [] then 0 else HeldBy(calls[0], b) + OpenCalls(calls[1..], b)
  }

  lemma {:induction false} OpenUpdate(calls: seq<Call>, c: nat, x: Call, b: Batch)
    requires c < |calls|
    ensures OpenCalls(calls[c := x], b) + HeldBy(calls[c], b) == OpenCalls(calls, b) + HeldBy(x, b)
  {
    hide HeldBy;
    var r := calls[c := x];
    if c == 0 {
      assert r[1..] == calls[1..];
    } else {
      OpenUpdate(calls[1..], c - 1, x, b);
      assert r[0] == calls[0] && r[1..] == calls[1..][c - 1 := x];
    }
  }

  lemma {:induction false} OpenAppend(calls: seq<Call>, x: Call, b: Batch)
    ensures OpenCalls(calls + [x], b) == OpenCalls(calls, b) + HeldBy(x, b)
  {
    hide HeldBy;
    if calls == [] {
      assert calls + [x] == [x] && [x][1..] == [];
    } else {
      OpenAppend(calls[1..], x, b);
      assert (calls + [x])[1..] == calls[1..] + [x];
    }
  }

  lemma {:induction false} OpenMember(calls: seq<Call>, b: Batch)
    ensures OpenCalls(calls, b) > 0 <==> exists i :: 0 <= i < |calls| && !calls[i].Ended? && calls[i].batch == b
  {
    if calls != [] {
      OpenMember(calls[1..], b);
      if i :| 0 <= i < |calls| && !calls[i].Ended? && calls[i].batch == b {
        assert i > 0 ==> calls[1..][i - 1] == calls[i];
      }
      if i :| 0 <= i < |calls| - 1 && !calls[1..][i].Ended? && calls[1..][i].batch == b {
        assert calls[i + 1] == calls[1..][i];
      }
    }
  }

  /** The queue slots and the open calls that hold the batch. */
  function Copies(s: Session, b: Batch): nat {
    multiset(s.retryBatches)[b] + OpenCalls(s.calls, b)
  }

  // ----- one step -----

  /** The step puts the batch into the queue of retries. */
  predicate Queues(s: Session, s': Session, b: Batch) {
    multiset(s'.retryBatches)[b] > multiset(s.retryBatches)[b]
  }

  /** A call of this batch fails retryably, there is room, and the batch is not left to the drain that has it in flight. */
  predicate FailsBack(cfg: Config, s: Session, step: Step, b: Batch) {
    && step.Settling? && Enabled(s, step) && step.outcome == Retryable
    && s.calls[step.call].batch == b && CanRetry(cfg, s, b)
    && (s.calls[step.call].Draining? || s.inFlight != Some(b))
  }

  lemma SliceCount(bs: seq<Batch>, i: nat, b: Batch)
    requires i <= |bs|
    ensures multiset(bs[..i])[b] <= multiset(bs)[b] && multiset(bs[i..])[b] <= multiset(bs)[b]
  {
    assert bs == bs[..i] + bs[i..];
  }

  lemma DrainQueues(s: Session, c: nat, explicit: bool, b: Batch)
    requires c < |s.calls|
    ensures multiset(Drain(s, c, explicit).retryBatches)[b] <= multiset(s.retryBatches)[b]
  {
    if s.retryBatches != [] { SliceCount(s.retryBatches, 1, b); }
  }

  lemma SignalQueues(cfg: Config, s: Session, kind: string, now: int, allowed: bool, b: Batch)
    requires Usable(cfg)
    ensures !Queues(s, Signal(cfg, s, kind, now, allowed), b)
  {
    var i, j := RoomMade(s.pending, s.retryBatches, cfg.maxQueue);
    SliceCount(s.retryBatches, j, b);
    hide MakeRoom, Recent, TotalQueued;
  }

  lemma FlushQueues(s: Session, keepalive: bool, allowed: bool, b: Batch)
    ensures !Queues(s, Flush(s, keepalive, allowed), b)
  {
    if s.retryBatches != [] { SliceCount(s.retryBatches, 1, b); }
    if allowed && !keepalive && !s.flushing {
      DrainQueues(s.(flushing := true, calls := s.calls + [Ended]), |s.calls|, !s.started, b);
    }
    hide Drain, Assigned;
  }

  lemma PushCount(bs: seq<Batch>, x: Batch, b: Batch)
    ensures multiset([x] + bs)[b] == multiset(bs)[b] + if x == b then 1 else 0
  {
    assert multiset([x] + bs) == multiset{x} + multiset(bs);
  }

  /** How a call ends that does not go on to another batch. */
  lemma SettleEnds(cfg: Config, s: Session, c: nat, outcome: Outcome)
    requires c < |s.calls| && !s.calls[c].Ended? && !(s.calls[c].Draining? && outcome == Delivered)
    ensures var r, x := Settle(cfg, s, c, outcome), s.calls[c].batch;
            && r.calls == s.calls[c := Ended]
            && r.retryBatches == if FailsBack(cfg, s, Settling(c, outcome), x) then [x] + s.retryBatches else s.retryBatches
  {
    hide CanRetry, Drain;
  }

  lemma SettleQueues(cfg: Config, s: Session, c: nat, outcome: Outcome, b: Batch)
    requires c < |s.calls| && !s.calls[c].Ended?
    ensures Queues(s, Settle(cfg, s, c, outcome), b) <==> FailsBack(cfg, s, Settling(c, outcome), b)
  {
    var x := s.calls[c].batch;
    if s.calls[c].Draining? && outcome == Delivered {
      DrainQueues(Landed(s, x), c, s.calls[c].explicit, b);
      hide Drain, CanRetry;
    } else {
      PushCount(s.retryBatches, x, b);
      SettleEnds(cfg, s, c, outcome);
      hide Settle, CanRetry;
    }
  }

  /** Exactly when a step queues a batch, whether it was delivered before or not. */
  lemma QueuesIff(cfg: Config, s: Session, step: Step, b: Batch)
    requires Usable(cfg)
    ensures Queues(s, Apply(cfg, s, step), b) <==> FailsBack(cfg, s, step, b)
  {
    hide Signal, Flush, Settle, CanRetry;
    if Enabled(s, step) {
      match step
      case Signalling(kind, now, allowed) => SignalQueues(cfg, s, kind, now, allowed, b);
      case Flushing(keepalive, allowed) => FlushQueues(s, keepalive, allowed, b);
      case Settling(call, outcome) => SettleQueues(cfg, s, call, outcome, b);
      case _ =>
    }
  }

  // ----- how many copies there are -----

  /** A keepalive flush that takes along the batch another call has in flight. */
  predicate Shares(s: Session, step: Step) {
    step.Flushing? && step.keepalive && step.allowed && s.inFlight.Some?
  }

  predicate Delivers(s: Session, step: Step, b: Batch) {
    step.Settling? && Enabled(s, step) && step.outcome == Delivered && s.calls[step.call].batch == b
  }

  /** A batch with this id has not been formed yet. */
  predicate IsNext(s: Session, b: Batch) { b.id == s.nextBatch }

  lemma NextBatchCopies(s: Session, b: Batch)
    ensures var (s', next) := NextBatch(s);
            && multiset(s'.retryBatches)[b] + Count(next == Some(b)) <= multiset(s.retryBatches)[b] + Count(IsNext(s, b))
            && (!IsNext(s, b) ==> multiset(s'.retryBatches)[b] + Count(next == Some(b)) == multiset(s.retryBatches)[b])
            && s'.calls == s.calls
  {
    if s.retryBatches != [] {
      PushCount(s.retryBatches[1..], s.retryBatches[0], b);
      assert [s.retryBatches[0]] + s.retryBatches[1..] == s.retryBatches;
    }
    hide Assigned, BatchTaken;
  }

  lemma DrainCopies(s: Session, c: nat, explicit: bool, b: Batch)
    requires c < |s.calls|
    ensures Copies(Drain(s, c, explicit), b) + HeldBy(s.calls[c], b) <= Copies(s, b) + Count(IsNext(s, b))
    ensures !IsNext(s, b) ==> Copies(Drain(s, c, explicit), b) + HeldBy(s.calls[c], b) == Copies(s, b)
  {
    NextBatchCopies(s, b);
    OpenUpdate(s.calls, c, Drain(s, c, explicit).calls[c], b);
    hide NextBatch, OpenCalls;
  }

  lemma FlushCopies(s: Session, keepalive: bool, allowed: bool, b: Batch)
    ensures Copies(Flush(s, keepalive, allowed), b)
         <= Copies(s, b) + Count(IsNext(s, b)) + Count(Shares(s, Flushing(keepalive, allowed)) && s.inFlight == Some(b))
  {
    if allowed && keepalive {
      NextBatchCopies(s, b);
      var (s', next) := NextBatch(s);
      if s.inFlight.Some? {
        OpenAppend(s.calls, Keepalive(s.inFlight.value), b);
      } else if next.Some? {
        OpenAppend(s.calls, Keepalive(next.value), b);
      }
      hide NextBatch, OpenCalls;
    } else if allowed && !s.flushing {
      OpenAppend(s.calls, Ended, b);
      DrainCopies(s.(flushing := true, calls := s.calls + [Ended]), |s.calls|, !s.started, b);
      hide Drain, OpenCalls;
    }
  }

  lemma SettleCopies(cfg: Config, s: Session, c: nat, outcome: Outcome, b: Batch)
    requires c < |s.calls| && !s.calls[c].Ended?
    ensures var r := Settle(cfg, s, c, outcome);
            && Copies(r, b) + Count(outcome == Delivered && s.calls[c].batch == b) <= Copies(s, b) + Count(IsNext(s, b))
            && (outcome == Delivered && !IsNext(s, b) ==> Copies(r, b) + Count(s.calls[c].batch == b) == Copies(s, b))
  {
    var x := s.calls[c].batch;
    if s.calls[c].Draining? && outcome == Delivered {
      var landed := Landed(s, x);
      DrainCopies(landed, c, s.calls[c].explicit, b);
      assert landed.calls == s.calls && landed.retryBatches == s.retryBatches && landed.nextBatch == s.nextBatch;
      assert Settle(cfg, s, c, outcome) == Drain(landed, c, s.calls[c].explicit);
      hide Drain, OpenCalls, Settle, Landed;
    } else {
      OpenUpdate(s.calls, c, Ended, b);
      PushCount(s.retryBatches, x, b);
      SettleEnds(cfg, s, c, outcome);
      hide Settle, OpenCalls, CanRetry;
    }
  }

  lemma SignalCopies(cfg: Config, s: Session, kind: string, now: int, allowed: bool, b: Batch)
    requires Usable(cfg)
    ensures Copies(Signal(cfg, s, kind, now, allowed), b) <= Copies(s, b)
  {
    SignalQueues(cfg, s, kind, now, allowed, b);
    hide MakeRoom, Recent, OpenCalls;
  }

  lemma StepCopies(cfg: Config, s: Session, step: Step, b: Batch)
    requires Usable(cfg)
    ensures Copies(Apply(cfg, s, step), b) + Count(Delivers(s, step, b))
         <= Copies(s, b) + Count(IsNext(s, b)) + Count(Shares(s, step) && s.inFlight == Some(b))
  {
    hide Signal, Flush, Settle, OpenCalls, Copies;
    if Enabled(s, step) {
      match step
      case Signalling(kind, now, allowed) => SignalCopies(cfg, s, kind, now, allowed, b);
      case Flushing(keepalive, allowed) => FlushCopies(s, keepalive, allowed, b);
      case Settling(call, outcome) => SettleCopies(cfg, s, call, outcome, b);
      case Starting(allowed) => SameCopies(s, Start(s, allowed), b);
      case Stopping(allowed) => SameCopies(s, Stop(s, allowed), b);
    }
  }

  lemma SameCopies(s: Session, s': Session, b: Batch)
    requires s'.calls == s.calls && (s'.retryBatches == s.retryBatches || s'.retryBatches == [])
    ensures Copies(s', b) <= Copies(s, b)
  {
  }

  // ----- runs -----

  predicate Drains(s: Session, c: int) {
    0 <= c < |s.calls| && s.calls[c].Draining? && s.inFlight == Some(s.calls[c].batch)
  }

  /** The batch in flight is the batch of an open drain. */
  ghost predicate InFlightDrained(s: Session) {
    s.inFlight.Some? ==> exists c :: Drains(s, c)
  }

  lemma DrainInFlight(s: Session, c: nat, explicit: bool)
    requires c < |s.calls| && (s.inFlight.Some? ==> exists i :: i != c && Drains(s, i))
    ensures InFlightDrained(Drain(s, c, explicit))
  {
    var r := Drain(s, c, explicit);
    hide NextBatch;
    if r.inFlight != s.inFlight || Drains(r, c) {
      assert r.inFlight.Some? ==> Drains(r, c);
    } else if s.inFlight.Some? {
      var i :| i != c && Drains(s, i);
      assert |r.calls| == |s.calls| && r.calls[i] == s.calls[i] && r.inFlight == s.inFlight by { DrainFrame(s, c, explicit); }
      assert Drains(r, i);
    }
  }

  lemma DrainFrame(s: Session, c: nat, explicit: bool)
    requires c < |s.calls|
    ensures var r := Drain(s, c, explicit); |r.calls| == |s.calls| && forall i :: 0 <= i < |s.calls| && i != c ==> r.calls[i] == s.calls[i]
  {
    hide Assigned;
  }

  lemma FlushInFlight(s: Session, keepalive: bool, allowed: bool)
    requires InFlightDrained(s)
    ensures InFlightDrained(Flush(s, keepalive, allowed))
  {
    if s.inFlight.Some? {
      var i :| Drains(s, i);
      if allowed && !keepalive && !s.flushing {
        var started := s.(flushing := true, calls := s.calls + [Ended]);
        assert Drains(started, i);
        DrainInFlight(started, |s.calls|, !s.started);
      } else {
        hide Drain, NextBatch;
        assert Drains(Flush(s, keepalive, allowed), i);
      }
    } else if allowed && !keepalive && !s.flushing {
      DrainInFlight(s.(flushing := true, calls := s.calls + [Ended]), |s.calls|, !s.started);
    } else {
      hide Drain, Assigned;
    }
  }

  lemma SettleInFlight(cfg: Config, s: Session, c: nat, outcome: Outcome)
    requires c < |s.calls| && !s.calls[c].Ended? && InFlightDrained(s)
    ensures InFlightDrained(Settle(cfg, s, c, outcome))
  {
    var x := s.calls[c].batch;
    var landed, r := Landed(s, x), Settle(cfg, s, c, outcome);
    if s.inFlight.Some? && !(s.calls[c].Draining? && s.inFlight == Some(x)) {
      var i :| Drains(s, i);
      assert i != c;
      if s.calls[c].Draining? && outcome == Delivered {
        assert Drains(landed, i);
        DrainInFlight(landed, c, s.calls[c].explicit);
      } else {
        hide CanRetry, Drain;
        assert Drains(r, i);
      }
    } else if s.calls[c].Draining? && outcome == Delivered {
      DrainInFlight(landed, c, s.calls[c].explicit);
    } else {
      hide CanRetry, Drain;
      assert r.inFlight.None?;
    }
  }

  lemma StepInFlight(cfg: Config, s: Session, step: Step)
    requires Usable(cfg) && InFlightDrained(s)
    ensures InFlightDrained(Apply(cfg, s, step))
  {
    hide Flush, Settle;
    var s' := Apply(cfg, s, step);
    if Enabled(s, step) {
      match step
      case Flushing(keepalive, allowed) => FlushInFlight(s, keepalive, allowed);
      case Settling(call, outcome) => SettleInFlight(cfg, s, call, outcome);
      case _ =>
        hide MakeRoom, Recent;
        if i :| Drains(s, i) { assert Drains(s', i); }
    }
  }

  lemma {:induction false} RunInFlight(cfg: Config, steps: seq<Step>)
    requires Usable(cfg)
    ensures InFlightDrained(Run(cfg, steps))
  {
    if steps != [] {
      RunInFlight(cfg, steps[..|steps| - 1]);
      StepInFlight(cfg, Run(cfg, steps[..|steps| - 1]), steps[|steps| - 1]);
    }
  }

  /** The batches that some call was told were delivered. */
  ghost function DeliveredBy(cfg: Config, steps: seq<Step>): set<Batch>
    requires Usable(cfg)
  {
    if steps == [] then {}
    else
      var s, step := Run(cfg, steps[..|steps| - 1]), steps[|steps| - 1];
      DeliveredBy(cfg, steps[..|steps| - 1])
      + if step.Settling? && Enabled(s, step) && step.outcome == Delivered then {s.calls[step.call].batch} else {}
  }

  ghost predicate NeverShares(cfg: Config, steps: seq<Step>)
    requires Usable(cfg)
  {
    forall i :: 0 <= i < |steps| ==> !Shares(Run(cfg, steps[..i]), steps[i])
  }

  /** What the client holds was formed before. */
  lemma HeldIsFormed(cfg: Config, steps: seq<Step>, b: Batch)
    requires Usable(cfg) && Copies(Run(cfg, steps), b) > 0
    ensures GoodBatch(Run(cfg, steps), b)
  {
    QueueStaysBounded(cfg, steps);
    var s := Run(cfg, steps);
    hide Run;
    OpenMember(s.calls, b);
    assert Holds(s, b);
  }

  lemma StepForms(cfg: Config, s: Session, step: Step)
    requires Usable(cfg)
    ensures s.nextBatch <= Apply(cfg, s, step).nextBatch
  {
    hide MakeRoom, Recent, Assigned, CanRetry;
  }

  /**
   * While no keepalive flush takes along a batch in flight, the client never holds two copies of a batch,
   * and once a batch is delivered it is gone: no queue slot and no open call has it.
   */
  lemma {:induction false} NeverSharedGone(cfg: Config, steps: seq<Step>, b: Batch)
    requires Usable(cfg) && NeverShares(cfg, steps)
    ensures Copies(Run(cfg, steps), b) <= 1
    ensures b in DeliveredBy(cfg, steps) ==> Copies(Run(cfg, steps), b) == 0 && b.id < Run(cfg, steps).nextBatch
  {
    if steps != [] {
      var before, step := steps[..|steps| - 1], steps[|steps| - 1];
      assert forall i :: 0 <= i < |before| ==> before[..i] == steps[..i];
      NeverSharedGone(cfg, before, b);
      var s := Run(cfg, before);
      if Copies(s, b) > 0 { HeldIsFormed(cfg, before, b); }
      StepCopies(cfg, s, step, b);
      StepForms(cfg, s, step);
      if Delivers(s, step, b) { DeliveredWasHeld(s, step, b); HeldIsFormed(cfg, before, b); }
      hide Copies, Apply, Shares;
    }
  }

  lemma DeliveredWasHeld(s: Session, step: Step, b: Batch)
    requires Delivers(s, step, b)
    ensures Copies(s, b) > 0
  {
    OpenMember(s.calls, b);
  }

  // ----- whether a batch can come back -----

  lemma {:induction false} RunGone(cfg: Config, steps: seq<Step>, more: seq<Step>, b: Batch)
    requires Usable(cfg) && Copies(Run(cfg, steps), b) == 0 && b.id < Run(cfg, steps).nextBatch
    ensures Copies(Run(cfg, steps + more), b) == 0 && b.id < Run(cfg, steps + more).nextBatch
    decreases |more|
  {
    if more == [] {
      assert steps + more == steps;
    } else {
      var init, step := more[..|more| - 1], more[|more| - 1];
      assert (steps + more)[..|steps + more| - 1] == steps + init;
      RunGone(cfg, steps, init, b);
      var s := Run(cfg, steps + init);
      RunInFlight(cfg, steps + init);
      if s.inFlight == Some(b) { FlownIsHeld(s, b); }
      StepCopies(cfg, s, step, b);
      StepForms(cfg, s, step);
      hide Copies, Shares;
    }
  }

  lemma FlownIsHeld(s: Session, b: Batch)
    requires InFlightDrained(s) && s.inFlight == Some(b)
    ensures Copies(s, b) > 0
  {
    var c :| Drains(s, c);
    OpenMember(s.calls, b);
  }

  /** A call whose retryable failure queues the batch. */
  lemma ReturningCall(s: Session, b: Batch) returns (c: nat)
    requires InFlightDrained(s) && OpenCalls(s.calls, b) > 0
    ensures c < |s.calls| && !s.calls[c].Ended? && s.calls[c].batch == b && (s.calls[c].Draining? || s.inFlight != Some(b))
  {
    if s.inFlight == Some(b) {
      c :| Drains(s, c);
    } else {
      OpenMember(s.calls, b);
      c :| 0 <= c < |s.calls| && !s.calls[c].Ended? && s.calls[c].batch == b;
    }
  }

  function Return(c: nat): seq<Step> { [Flushing(true, false)] + [Settling(c, Retryable)] }

  lemma RunOne(cfg: Config, steps: seq<Step>, step: Step)
    requires Usable(cfg)
    ensures Run(cfg, steps + [step]) == Apply(cfg, Run(cfg, steps), step)
  {
    assert (steps + [step])[..|steps|] == steps;
  }

  /** After a pause has emptied the queue there is room for it. */
  lemma Returned(cfg: Config, steps: seq<Step>, c: nat, b: Batch)
    requires Usable(cfg)
    requires var s := Run(cfg, steps);
             c < |s.calls| && !s.calls[c].Ended? && s.calls[c].batch == b && (s.calls[c].Draining? || s.inFlight != Some(b))
    ensures b in Run(cfg, steps + Return(c)).retryBatches
  {
    var s, pause := Run(cfg, steps), Flushing(true, false);
    OpenMember(s.calls, b);
    HeldIsFormed(cfg, steps, b);
    RunOne(cfg, steps, pause);
    RunOne(cfg, steps + [pause], Settling(c, Retryable));
    assert steps + Return(c) == steps + [pause] + [Settling(c, Retryable)];
    var cleared := Run(cfg, steps + [pause]);
    assert cleared == ClearQueue(s);
    hide Run, Settle;
    assert CanRetry(cfg, cleared, b);
    QueuesIff(cfg, cleared, Settling(c, Retryable), b);
  }

  /** On any run, a batch that was formed can be queued at some later time exactly if a queue slot or an open call holds it. */
  lemma ReturnsIff(cfg: Config, steps: seq<Step>, b: Batch)
    requires Usable(cfg) && b.id < Run(cfg, steps).nextBatch
    ensures (exists more :: b in Run(cfg, steps + more).retryBatches) <==> Copies(Run(cfg, steps), b) > 0
  {
    var s := Run(cfg, steps);
    if Copies(s, b) == 0 {
      forall more ensures b !in Run(cfg, steps + more).retryBatches {
        RunGone(cfg, steps, more, b);
      }
    } else if b in s.retryBatches {
      assert steps + [] == steps;
    } else {
      RunInFlight(cfg, steps);
      var c := ReturningCall(s, b);
      Returned(cfg, steps, c, b);
    }
  }

  /**
   * A batch that a call is just told was delivered can still be queued again exactly if another queue slot
   * or open call held it at that time.
   */
  lemma DeliveredReturnsIff(cfg: Config, steps: seq<Step>, c: nat)
    requires Usable(cfg) && Enabled(Run(cfg, steps), Settling(c, Delivered))
    ensures var b := Run(cfg, steps).calls[c].batch;
            (exists more :: b in Run(cfg, steps + [Settling(c, Delivered)] + more).retryBatches) <==> Copies(Run(cfg, steps), b) >= 2
  {
    var s := Run(cfg, steps);
    var b := s.calls[c].batch;
    DeliveredWasHeld(s, Settling(c, Delivered), b);
    HeldIsFormed(cfg, steps, b);
    RunOne(cfg, steps, Settling(c, Delivered));
    SettleCopies(cfg, s, c, Delivered, b);
    StepForms(cfg, s, Settling(c, Delivered));
    hide Run, Copies, Settle;
    ReturnsIff(cfg, steps + [Settling(c, Delivered)], b);
  }

  // ----- the two runs -----

  const FIRST_EVENT := Event(1, "page_viewed")
  const FIRST_BATCH := Batch(0, [FIRST_EVENT])

  /** A drain has the first batch in flight, and a keepalive flush takes it along. */
  function SharedSteps(): seq<Step> {
    [Starting(true)] + [Signalling("page_viewed", 0, true)] + [Flushing(false, true)] + [Flushing(true, true)]
  }

  predicate OnePending(s: Session) {
    s.pending == [FIRST_EVENT] && s.retryBatches == [] && s.nextBatch == 0 && s.started && !s.flushing
    && s.calls == [] && s.inFlight == None
  }

  lemma OneSignal(cfg: Config)
    requires Usable(cfg)
    ensures OnePending(Signal(cfg, FRESH_SESSION.(started := true), "page_viewed", 0, true))
  {
    assert MakeRoom([], [], cfg.maxQueue) == ([], []);
    assert Recent([], 0) == [];
    assert [] + [FIRST_EVENT] == [FIRST_EVENT];
  }

  predicate BothSending(s: Session) {
    s.calls == [Draining(FIRST_BATCH, false), Keepalive(FIRST_BATCH)] && s.inFlight == Some(FIRST_BATCH)
    && s.pending == [] && s.retryBatches == [] && s.started
  }

  lemma TwoFlushes(s: Session)
    requires OnePending(s)
    ensures BothSending(Flush(Flush(s, false, true), true, true))
  {
    hide Assigned;
    assert [FIRST_EVENT][..1] == [FIRST_EVENT] && [FIRST_EVENT][1..] == [];
    assert Flush(s, false, true).calls == [Draining(FIRST_BATCH, false)];
  }

  lemma SharedRun(cfg: Config)
    requires Usable(cfg)
    ensures BothSending(Run(cfg, SharedSteps()))
  {
    var s1, s2 := [Starting(true)], [Starting(true)] + [Signalling("page_viewed", 0, true)];
    assert Run(cfg, []) == FRESH_SESSION;
    RunOne(cfg, [], Starting(true));
    assert [] + [Starting(true)] == s1;
    RunOne(cfg, s1, Signalling("page_viewed", 0, true));
    RunOne(cfg, s2, Flushing(false, true));
    RunOne(cfg, s2 + [Flushing(false, true)], Flushing(true, true));
    OneSignal(cfg);
    hide Run, Signal, Flush;
    TwoFlushes(Run(cfg, s2));
  }

  /** The drain is told first that the batch was delivered, then the keepalive request fails. */
  lemma KeepaliveFailsLate(cfg: Config)
    requires Usable(cfg)
    ensures Run(cfg, SharedSteps() + [Settling(0, Delivered)] + [Settling(1, Retryable)]).retryBatches == [FIRST_BATCH]
  {
    SharedRun(cfg);
    RunOne(cfg, SharedSteps(), Settling(0, Delivered));
    RunOne(cfg, SharedSteps() + [Settling(0, Delivered)], Settling(1, Retryable));
    hide Run, Assigned;
    var r := Run(cfg, SharedSteps() + [Settling(0, Delivered)]);
    assert r.inFlight == None && r.calls == [Ended, Keepalive(FIRST_BATCH)] && r.retryBatches == [] && r.pending == [];
    assert SumEvents([]) == 0;
    assert CanRetry(cfg, r, FIRST_BATCH);
    assert [FIRST_BATCH] + [] == [FIRST_BATCH];
  }

  /** The keepalive request is told first, and the drain, which asks nobody, queues the batch again when its own fails. */
  lemma DrainFailsLate(cfg: Config)
    requires Usable(cfg)
    ensures Run(cfg, SharedSteps() + [Settling(1, Delivered)] + [Settling(0, Retryable)]).retryBatches == [FIRST_BATCH]
  {
    SharedRun(cfg);
    RunOne(cfg, SharedSteps(), Settling(1, Delivered));
    RunOne(cfg, SharedSteps() + [Settling(1, Delivered)], Settling(0, Retryable));
    hide Run, Assigned;
    var r := Run(cfg, SharedSteps() + [Settling(1, Delivered)]);
    assert r.calls == [Draining(FIRST_BATCH, false), Ended] && r.retryBatches == [] && r.pending == [];
    assert SumEvents([]) == 0;
    assert CanRetry(cfg, r, FIRST_BATCH);
    assert [FIRST_BATCH] + [] == [FIRST_BATCH];
  }
}
