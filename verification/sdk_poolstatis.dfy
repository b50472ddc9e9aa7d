/** The client object itself: its fields are updated in place, one synchronous piece of code at a time. */
module SdkPoolstatis {
  import Sequences
  import opened SdkClient

  const ATTEMPTS := 4

  datatype Response = Status(code: int) | NetworkError

  predicate Accepted(r: Response) {
    r.Status? && (200 <= r.code < 300 || r.code == 207)
  }

  predicate Refused(r: Response) {
    r.Status? && !Accepted(r) && r.code < 500
  }

  predicate Transient(r: Response) {
    !Accepted(r) && !Refused(r)
  }

  /**
   * One request with bounded retry; `responses` is what the environment answers, attempt by
   * attempt. The first decisive answer is the result, and nothing is sent after it.
   */
  method Send(keepalive: bool, responses: seq<Response>) returns (outcome: Outcome, sent: nat)
    requires |responses| >= if keepalive then 1 else 4
    ensures 1 <= sent <= if keepalive then 1 else 4
    ensures forall i :: 0 <= i < sent - 1 ==> Transient(responses[i])
    ensures outcome == Ok <==> Accepted(responses[sent - 1])
    ensures outcome == Drop <==> Refused(responses[sent - 1])
    ensures outcome == Retry ==> sent == if keepalive then 1 else 4
  {
    var attempts := if keepalive then 1 else ATTEMPTS;
    var i := 0;
    while i < attempts
      invariant 0 <= i <= attempts
      invariant forall j :: 0 <= j < i ==> Transient(responses[j])
    {
      var res := responses[i];
      if res.Status? {
        if 200 <= res.code < 300 || res.code == 207 { return Ok, i + 1; }
        if res.code < 500 { return Drop, i + 1; }
      }
      i := i + 1;
    }
    return Retry, attempts;
  }

  class Poolstatis {
    const cfg: Config
    var events: seq<Item>
    var entities: seq<Item>
    var retries: seq<Batch>
    var flushing: bool
    var drains: seq<Drain>   // suspended invocations of `drain`, by invocation number
    var nextBatch: nat       // the source of fresh batch ids
    var nextSerial: nat
    ghost var ledger: Ledger

    /** The value the step functions work on. */
    ghost function Model(): Client
      reads this
    {
      Client(events, entities, retries, flushing, drains, nextBatch, nextSerial, ledger)
    }

    constructor (maxBatchSize: int, maxQueue: int)
      ensures Model() == FRESH_CLIENT
      ensures cfg == Config(if maxBatchSize < 500 then maxBatchSize else 500, maxQueue)
    {
      cfg := Config(if maxBatchSize < MAX_BATCH_SIZE then maxBatchSize else MAX_BATCH_SIZE, maxQueue);
      events, entities, retries, flushing, drains := [], [], [], false, [];
      nextBatch, nextSerial := 0, 0;
      ledger := FRESH_LEDGER;
    }

    /** `push`, then `splice` the oldest events above the cap. */
    method PushEvent(item: Item)
      modifies this
      ensures Model() == EventQueued(cfg, old(Model()), item)
    {
      nextSerial := nextSerial + 1;
      events := events + [item];
      ledger := ledger.(captured := ledger.captured + multiset{item});
      var k := 0;
      if |events| > cfg.maxQueue {
        k := Spliced(|events|, |events| - cfg.maxQueue);
      }
      ledger := ledger.(evicted := ledger.evicted + multiset(events[..k]));
      events := events[k..];
    }

    method Capture(name: string, actor: string)
      modifies this
      ensures Model() == SdkClient.Capture(cfg, old(Model()), name, actor)
    {
      PushEvent(Event(nextSerial, name, actor));
      if |events| >= cfg.maxBatchSize {
        Flush(false);
      }
    }

    method Identify(kind: string, key: string)
      modifies this
      ensures Model() == SdkClient.Identify(cfg, old(Model()), kind, key)
    {
      var item := Entity(nextSerial, kind, key);
      nextSerial := nextSerial + 1;
      entities := entities + [item];
      ledger := ledger.(captured := ledger.captured + multiset{item});
      if |entities| >= cfg.maxBatchSize {
        Flush(false);
      }
    }

    method DiscardQueuedEvents(selected: Item -> bool)
      modifies this
      ensures Model() == Discard(old(Model()), selected)
    {
      ledger := ledger.(discarded := ledger.discarded + multiset(Sequences.Select(events, selected))
                                     + multiset(DiscardedItems(retries, selected)));
      events := Sequences.Reject(events, selected);
      retries := DiscardBatches(retries, selected);
    }

    /** The synchronous start of a flush, up to the first `await`. */
    method Flush(keepalive: bool)
      modifies this
      ensures Model() == SdkClient.Flush(cfg, old(Model()), keepalive)
    {
      if !keepalive {
        if flushing { return; }
        flushing := true;
      }
      var d, pending := |drains|, retries;
      drains := drains + [Finished];
      retries := [];
      Proceed(d, keepalive, Retrying(pending));
    }

    /** The drain loops from one `await` to the next. */
    method Proceed(d: nat, keepalive: bool, phase: Phase)
      requires d < |drains|
      modifies this
      ensures Model() == Resume(cfg, old(Model()), d, keepalive, phase)
    {
      if phase.Retrying? && phase.rest != [] {
        drains := drains[d := Awaiting(keepalive, Retrying(phase.rest[1..]), phase.rest[0])];
      } else if !phase.SendingEvents? && entities != [] {
        var k := Spliced(|entities|, BatchCap(cfg, keepalive));
        drains := drains[d := Awaiting(keepalive, SendingEntities, EntityBatch(entities[..k]))];
        entities := entities[k..];
      } else if events != [] {
        var k := Spliced(|events|, BatchCap(cfg, keepalive));
        var id := nextBatch;
        nextBatch := nextBatch + 1;
        drains := drains[d := Awaiting(keepalive, SendingEvents, EventBatch(id, events[..k]))];
        ledger := ledger.(batchOf := ledger.batchOf + map x | x in events[..k] :: id);
        events := events[k..];
      } else {
        drains := drains[d := if keepalive then Finished else Returning];
      }
    }

    method Requeue(b: Batch)
      modifies this
      ensures Model() == SdkClient.Requeue(old(Model()), b)
    {
      retries := retries + [b];
      var k := 0;
      if |retries| > MAX_RETRY_BATCHES {
        k := Spliced(|retries|, |retries| - MAX_RETRY_BATCHES);
      }
      ledger := ledger.(evicted := ledger.evicted + multiset(Flat(retries[..k])));
      retries := retries[k..];
    }

    /** The continuation after the request of drain `d` ended with `outcome`. */
    method Settle(d: nat, outcome: Outcome)
      requires d < |drains| && drains[d].Awaiting?
      modifies this
      ensures Model() == SdkClient.Settle(cfg, old(Model()), d, outcome)
    {
      var Awaiting(keepalive, phase, b) := drains[d];
      drains := drains[d := Finished];
      match outcome {
        case Ok => ledger := ledger.(accepted := ledger.accepted + multiset(b.items));
        case Drop => ledger := ledger.(rejected := ledger.rejected + multiset(b.items));
        case Retry => Requeue(b);
      }
      Proceed(d, keepalive, phase);
    }

    method FinishFlush(d: nat)
      requires d < |drains|
      modifies this
      ensures Model() == SdkClient.FinishFlush(old(Model()), d)
    {
      if drains[d].Returning? {
        drains := drains[d := Finished];
        flushing := false;
      }
    }
  }
}
