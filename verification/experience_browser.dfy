/** The observer object: its queue fields are updated in place by handlers and flushes. */
module ExperienceBrowser {
  import opened Wrappers
  import opened Sequences
  import opened ExperienceClient

  class BrowserExperience {
    const cfg: Config
    var pending: seq<Event>
    var retryBatches: seq<Batch>
    var acceptedAt: seq<int>
    var sequence: nat
    var started: bool
    var flushing: bool
    var inFlightBatch: Option<Batch>
    var calls: seq<Call>   // suspended `captureExperience` calls, by invocation number
    var nextBatchId: nat   // the source of fresh batch ids
    ghost var history: seq<int>
    ghost var batchOf: map<Event, nat>

    ghost function Model(): Session
      reads this
    {
      Session(pending, retryBatches, acceptedAt, sequence, started, flushing, inFlightBatch, calls, nextBatchId, history, batchOf)
    }

    constructor (maxQueue: int, maxEventsPerMinute: int)
      ensures Model() == FRESH_SESSION && Usable(cfg)
      ensures cfg.maxQueue == (if maxQueue > MAX_BATCH_EVENTS then maxQueue else MAX_BATCH_EVENTS)
      ensures cfg.maxPerMinute == (if maxEventsPerMinute > 1 then maxEventsPerMinute else 1)
    {
      cfg := Config(if maxQueue > MAX_BATCH_EVENTS then maxQueue else MAX_BATCH_EVENTS,
                    if maxEventsPerMinute > 1 then maxEventsPerMinute else 1);
      pending, retryBatches, acceptedAt, sequence := [], [], [], 0;
      started, flushing, inFlightBatch, calls, nextBatchId := false, false, None, [], 0;
      history, batchOf := [], map[];
    }

    method TotalQueuedEvents() returns (total: nat)
      ensures total == TotalQueued(pending, retryBatches)
    {
      total := |pending|;
      var i := 0;
      while i < |retryBatches|
        invariant 0 <= i <= |retryBatches|
        invariant total + SumEvents(retryBatches[i..]) == TotalQueued(pending, retryBatches)
      {
        total := total + |retryBatches[i].events|;
        i := i + 1;
      }
    }

    /** The eviction loop; it ends because the cap is at least one batch. */
    method EvictForOne()
      requires Usable(cfg)
      modifies this`pending, this`retryBatches
      ensures (pending, retryBatches) == MakeRoom(old(pending), old(retryBatches), cfg.maxQueue)
    {
      var total := TotalQueuedEvents();
      while total >= cfg.maxQueue
        invariant total == TotalQueued(pending, retryBatches)
        invariant MakeRoom(pending, retryBatches, cfg.maxQueue) == MakeRoom(old(pending), old(retryBatches), cfg.maxQueue)
        decreases |pending| + |retryBatches|
      {
        if |pending| > 0 {
          pending := pending[1..];
        } else {
          retryBatches := retryBatches[..|retryBatches| - 1];
        }
        total := TotalQueuedEvents();
      }
    }

    method Enqueue(event: Event, now: int, allowed: bool)
      requires Usable(cfg)
      modifies this
      ensures Model() == ExperienceClient.Enqueue(cfg, old(Model()), event, now, allowed)
    {
      if !started || !allowed { return; }
      acceptedAt := Recent(acceptedAt, now);
      if |acceptedAt| >= cfg.maxPerMinute { return; }
      acceptedAt := acceptedAt + [now];
      history := history + [now];
      EvictForOne();
      pending := pending + [event];
    }

    method Signal(kind: string, now: int, allowed: bool)
      requires Usable(cfg)
      modifies this
      ensures Model() == ExperienceClient.Signal(cfg, old(Model()), kind, now, allowed)
    {
      sequence := sequence + 1;
      Enqueue(Event(sequence, kind), now, allowed);
    }

    method NextBatch() returns (batch: Option<Batch>)
      modifies this
      ensures (Model(), batch) == ExperienceClient.NextBatch(old(Model()))
    {
      if retryBatches != [] {
        batch := Some(retryBatches[0]);
        retryBatches := retryBatches[1..];
        return;
      }
      if |pending| == 0 { return None; }
      var k := if |pending| < MAX_BATCH_EVENTS then |pending| else MAX_BATCH_EVENTS;
      batch := Some(Batch(nextBatchId, pending[..k]));
      batchOf := Assigned(batchOf, pending[..k], nextBatchId);
      nextBatchId := nextBatchId + 1;
      pending := pending[k..];
    }

    /** The drain loop from one `await` to the next. */
    method Drain(c: nat, explicit: bool)
      requires c < |calls|
      modifies this
      ensures Model() == ExperienceClient.Drain(old(Model()), c, explicit)
    {
      var next := None;
      if started || explicit {
        next := NextBatch();
      }
      match next {
        case None =>
          flushing := false;
          calls := calls[c := Ended];
        case Some(b) =>
          inFlightBatch := next;
          calls := calls[c := Draining(b, explicit)];
      }
    }

    method ClearQueue()
      modifies this
      ensures Model() == ExperienceClient.ClearQueue(old(Model()))
    {
      pending, retryBatches := [], [];
    }

    method Flush(keepalive: bool, allowed: bool)
      modifies this
      ensures Model() == ExperienceClient.Flush(old(Model()), keepalive, allowed)
    {
      if !allowed {
        ClearQueue();
        return;
      }
      if keepalive {
        var batch := inFlightBatch;
        if batch == None {
          batch := NextBatch();
        }
        if batch.Some? {
          calls := calls + [Keepalive(batch.value)];
        }
        return;
      }
      if flushing { return; }
      var c := |calls|;
      flushing := true;
      calls := calls + [Ended];
      Drain(c, !started);
    }

    method Settle(c: nat, outcome: Outcome)
      requires c < |calls| && !calls[c].Ended?
      modifies this
      ensures Model() == ExperienceClient.Settle(cfg, old(Model()), c, outcome)
    {
      var batch := calls[c].batch;
      var total := TotalQueuedEvents();
      var canRetry := total + |batch.events| <= cfg.maxQueue;
      match calls[c] {
        case Draining(_, explicit) =>
          if outcome != Delivered && outcome == Retryable && canRetry {
            retryBatches := [batch] + retryBatches;
          }
          if inFlightBatch == Some(batch) {
            inFlightBatch := None;
          }
          if outcome == Delivered {
            Drain(c, explicit);
          } else {
            flushing := false;
            calls := calls[c := Ended];
          }
        case Keepalive(_) =>
          calls := calls[c := Ended];
          if outcome == Retryable && inFlightBatch != Some(batch) && canRetry {
            retryBatches := [batch] + retryBatches;
          }
      }
    }

    method Start(allowed: bool)
      modifies this
      ensures Model() == ExperienceClient.Start(old(Model()), allowed)
    {
      if started || !allowed { return; }
      started := true;
    }

    method Stop(allowed: bool)
      modifies this
      ensures Model() == ExperienceClient.Stop(old(Model()), allowed)
    {
      if !started { return; }
      started := false;
      if !allowed {
        ClearQueue();
      }
    }
  }
}
