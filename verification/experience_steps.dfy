/** What every step of the interaction queue accepts, evicts, sends and puts back. */
module ExperienceSteps {
  import opened Wrappers
  import opened Sequences
  import opened ExperienceClient
  import ExperienceQueue

  // ----- counting -----

  function AllEvents(bs: seq<Batch>): seq<Event> {
    if bs == [] then [] else bs[0].events + AllEvents(bs[1..])
  }

  function Held(pending: seq<Event>, retryBatches: seq<Batch>): nat {
    |pending + AllEvents(retryBatches)|
  }

  lemma {:induction false} SumIsLength(bs: seq<Batch>)
    ensures SumEvents(bs) == |AllEvents(bs)|
  {
    if bs != [] { SumIsLength(bs[1..]); }
  }

  lemma HeldIsTotal(pending: seq<Event>, retryBatches: seq<Batch>)
    ensures TotalQueued(pending, retryBatches) == Held(pending, retryBatches)
  {
    SumIsLength(retryBatches);
  }

  /** How many of the times are less than a minute before `now`. */
  function LastMinute(times: seq<int>, now: int): nat {
    if times == [] then 0 else (if times[0] > now - 60_000 then 1 else 0) + LastMinute(times[1..], now)
  }

  lemma {:induction false} RecentCounts(times: seq<int>, now: int)
    ensures |Recent(times, now)| == LastMinute(times, now)
    ensures forall t :: t in Recent(times, now) ==> t > now - 60_000
  {
    if times != [] { RecentCounts(times[1..], now); }
  }

  // ----- eviction -----

  /** Just enough is dropped: the oldest pending events, and only without those the newest batches. */
  predicate JustEnough(pending: seq<Event>, retryBatches: seq<Batch>, cap: nat, i: nat, j: nat) {
    && i <= |pending| && j <= |retryBatches|
    && Held(pending[i..], retryBatches[..j]) < cap
    && (i > 0 ==> Held(pending[i - 1..], retryBatches) >= cap)
    && (j < |retryBatches| ==> i == |pending| && Held([], retryBatches[..j + 1]) >= cap)
  }

  lemma {:induction false} Evicts(pending: seq<Event>, retryBatches: seq<Batch>, cap: nat) returns (i: nat, j: nat)
    requires cap >= 1
    ensures JustEnough(pending, retryBatches, cap, i, j) && MakeRoom(pending, retryBatches, cap) == (pending[i..], retryBatches[..j])
    decreases |pending| + |retryBatches|
  {
    HeldIsTotal(pending, retryBatches);
    hide Held, TotalQueued;
    if TotalQueued(pending, retryBatches) < cap {
      i, j := 0, |retryBatches|;
      assert retryBatches[..j] == retryBatches && pending[0..] == pending;
    } else if pending != [] {
      var i', j' := Evicts(pending[1..], retryBatches, cap);
      i, j := i' + 1, j';
      assert pending[1..][i'..] == pending[i..];
      assert pending[0..] == pending;
      assert i' > 0 ==> pending[1..][i' - 1..] == pending[i - 1..];
    } else if retryBatches == [] {
      assert false by { NothingHeld(); }
    } else {
      var front := retryBatches[..|retryBatches| - 1];
      var i', j' := Evicts(pending, front, cap);
      i, j := i', j';
      assert front[..j] == retryBatches[..j];
      assert j < |front| ==> front[..j + 1] == retryBatches[..j + 1];
      assert j == |front| ==> retryBatches[..j + 1] == retryBatches;
    }
  }

  lemma NothingHeld()
    ensures TotalQueued([], []) == 0
  {
  }

  // ----- batches -----

  function AtMost25(n: nat): nat { if n < 25 then n else 25 }

  /** The first batch that waits for a retry, else the oldest pending events, 25 at most. */
  function Oldest(s: Session): Option<Batch> {
    if s.retryBatches != [] then Some(s.retryBatches[0])
    else if s.pending == [] then None
    else Some(Batch(s.nextBatch, s.pending[..AtMost25(|s.pending|)]))
  }

  /** The queue of `t` is that of `s` without its oldest batch. */
  predicate IsTaken(s: Session, t: Session) {
    if s.retryBatches != [] then t.retryBatches == s.retryBatches[1..] && t.pending == s.pending && t.nextBatch == s.nextBatch
    else if s.pending == [] then IsSameQueue(s, t)
    else t.retryBatches == [] && t.pending == s.pending[AtMost25(|s.pending|)..] && t.nextBatch == s.nextBatch + 1
  }

  predicate IsSameQueue(s: Session, t: Session) {
    t.pending == s.pending && t.retryBatches == s.retryBatches && t.nextBatch == s.nextBatch
  }

  /** Neither the rate window nor the observer changed. */
  predicate IsSameObserver(s: Session, t: Session) {
    t.acceptedAt == s.acceptedAt && t.sequence == s.sequence && t.started == s.started && t.history == s.history
  }

  /** Call `c` goes on draining: it sends the oldest batch, or ends when there is none or the observer has stopped. */
  predicate IsDrained(s: Session, t: Session, c: nat, explicit: bool)
    requires c < |s.calls|
  {
    && IsSameObserver(s, t)
    && if (s.started || explicit) && Oldest(s).Some? then
         && IsTaken(s, t) && t.flushing == s.flushing && t.inFlight == Oldest(s)
         && t.calls == s.calls[c := Draining(Oldest(s).value, explicit)]
       else IsSameQueue(s, t) && !t.flushing && t.inFlight == s.inFlight && t.calls == s.calls[c := Ended]
  }

  /** A failed batch goes to the front of the retries if the error may pass and the batch still fits. */
  predicate IsRequeued(cfg: Config, s: Session, t: Session, b: Batch, again: bool) {
    && t.pending == s.pending && t.nextBatch == s.nextBatch
    && t.retryBatches == if again && Held(s.pending, s.retryBatches) + |b.events| <= cfg.maxQueue then [b] + s.retryBatches else s.retryBatches
  }

  // ----- the table -----

  ghost predicate Follows(cfg: Config, s: Session, step: Step, t: Session) {
    match step
    case Signalling(kind, now, allowed) =>
      && t.sequence == s.sequence + 1 && t.started == s.started && t.flushing == s.flushing
      && t.inFlight == s.inFlight && t.calls == s.calls && t.nextBatch == s.nextBatch
      && if s.started && allowed && LastMinute(s.acceptedAt, now) < cfg.maxPerMinute then
           && t.history == s.history + [now] && t.acceptedAt == Recent(s.acceptedAt, now) + [now]
           && exists i: nat, j: nat ::
                && JustEnough(s.pending, s.retryBatches, cfg.maxQueue, i, j)
                && t.pending == s.pending[i..] + [Event(s.sequence + 1, kind)] && t.retryBatches == s.retryBatches[..j]
         else IsSameQueue(s, t) && t.history == s.history
    case Flushing(keepalive, allowed) =>
      if !allowed then t == s.(pending := [], retryBatches := [])
      else if keepalive then
        && IsSameObserver(s, t) && t.flushing == s.flushing && t.inFlight == s.inFlight
        && (if s.inFlight.Some? then IsSameQueue(s, t) && t.calls == s.calls + [Keepalive(s.inFlight.value)]
            else IsTaken(s, t) && t.calls == s.calls + if Oldest(s).Some? then [Keepalive(Oldest(s).value)] else [])
      else if s.flushing then t == s
      else IsDrained(s.(flushing := true, calls := s.calls + [Ended]), t, |s.calls|, !s.started)
    case Settling(c, outcome) =>
      if c >= |s.calls| || s.calls[c].Ended? then t == s
      else
        var b := s.calls[c].batch;
        var landed := if s.inFlight == Some(b) then None else s.inFlight;
        if s.calls[c].Draining? && outcome.Delivered? then IsDrained(s.(inFlight := landed), t, c, s.calls[c].explicit)
        else
          && IsSameObserver(s, t) && t.calls == s.calls[c := Ended]
          && IsRequeued(cfg, s, t, b, outcome.Retryable? && (s.calls[c].Draining? || s.inFlight != Some(b)))
          && t.inFlight == (if s.calls[c].Draining? then landed else s.inFlight)
          && t.flushing == (if s.calls[c].Draining? then false else s.flushing)
    case Starting(allowed) => t == s.(started := s.started || allowed)
    case Stopping(allowed) =>
      if !s.started || allowed then t == s.(started := false)
      else t == s.(started := false, pending := [], retryBatches := [])
  }

  lemma Accepts(cfg: Config, s: Session, kind: string, now: int, allowed: bool)
    requires Usable(cfg)
    ensures Follows(cfg, s, Signalling(kind, now, allowed), Signal(cfg, s, kind, now, allowed))
  {
    RecentCounts(s.acceptedAt, now);
    var i, j := Evicts(s.pending, s.retryBatches, cfg.maxQueue);
    hide Recent, LastMinute, MakeRoom, Held;
  }

  lemma Drains(s: Session, c: nat, explicit: bool)
    requires c < |s.calls|
    ensures IsDrained(s, Drain(s, c, explicit), c, explicit)
  {
  }

  lemma Flushes(cfg: Config, s: Session, keepalive: bool, allowed: bool)
    ensures Follows(cfg, s, Flushing(keepalive, allowed), Flush(s, keepalive, allowed))
  {
    if allowed && !keepalive && !s.flushing {
      Drains(s.(flushing := true, calls := s.calls + [Ended]), |s.calls|, !s.started);
    }
  }

  lemma Settles(cfg: Config, s: Session, c: nat, outcome: Outcome)
    requires c < |s.calls| && !s.calls[c].Ended?
    ensures Follows(cfg, s, Settling(c, outcome), Settle(cfg, s, c, outcome))
  {
    HeldIsTotal(s.pending, s.retryBatches);
    hide Held, TotalQueued, Drain, IsDrained;
    if s.calls[c].Draining? && outcome.Delivered? {
      Drains(Landed(s, s.calls[c].batch), c, s.calls[c].explicit);
    }
  }

  lemma StepFollows(cfg: Config, s: Session, step: Step)
    requires Usable(cfg)
    ensures Follows(cfg, s, step, Apply(cfg, s, step))
  {
    match step
    case Signalling(kind, now, allowed) => Accepts(cfg, s, kind, now, allowed);
    case Flushing(keepalive, allowed) => Flushes(cfg, s, keepalive, allowed);
    case Settling(c, outcome) => if Enabled(s, step) { Settles(cfg, s, c, outcome); }
    case _ =>
  }

  /** On every run: what the last step did. */
  lemma RunFollows(cfg: Config, steps: seq<Step>)
    requires Usable(cfg) && steps != []
    ensures Follows(cfg, Run(cfg, steps[..|steps| - 1]), steps[|steps| - 1], Run(cfg, steps))
  {
    hide Follows, Apply;
    StepFollows(cfg, Run(cfg, steps[..|steps| - 1]), steps[|steps| - 1]);
  }
}
