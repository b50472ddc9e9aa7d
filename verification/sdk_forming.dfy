/** Batches as they are formed on any run: the oldest items of their queue, up to the cap. */
module SdkForming {
  import opened Sequences
  import opened SdkClient
  import opened SdkDelivery

  /** Drain `d` has just formed a batch from a queue and waits for its request. */
  predicate Forms(c: Client, c': Client, d: nat) {
    && d < |c'.drains| && (d < |c.drains| ==> c.drains[d] != c'.drains[d])
    && c'.drains[d].Awaiting? && !c'.drains[d].phase.Retrying?
  }

  /** `items` are the oldest of the queue, at most 25 of them on a page that is going away and else at most the batch size. */
  predicate Oldest(cfg: Config, keepalive: bool, items: seq<Item>, left: seq<Item>) {
    var cap := if keepalive then 25 else cfg.maxBatchSize;
    if left == [] then |items| <= cap || |items| == 0 else |items| == if cap < 0 then 0 else cap
  }

  /** The drain has begun with the events, and looks at the entities no more. */
  predicate AtEvents(c: Client, d: nat) {
    d < |c.drains| && c.drains[d].Awaiting? && c.drains[d].phase.SendingEvents?
  }

  /** What a formed batch takes of queues that held `events` and `entities`: entities first, events under the fresh id. */
  predicate FormedFrom(cfg: Config, c': Client, d: nat, id: nat, events: seq<Item>, entities: seq<Item>, atEvents: bool)
    requires d < |c'.drains| && c'.drains[d].Awaiting?
  {
    var x := c'.drains[d];
    match x.sending
    case EventBatch(n, items) =>
      && n == id && items + c'.events == events && Oldest(cfg, x.keepalive, items, c'.events)
      && c'.entities == entities && (atEvents || entities == [])
    case EntityBatch(items) =>
      items + c'.entities == entities && Oldest(cfg, x.keepalive, items, c'.entities) && c'.events == events && !atEvents
  }

  /** Only drain `d` changes, and what it forms is formed from the queues. */
  predicate OneForms(cfg: Config, c: Client, c': Client, d: nat, atEvents: bool)
    requires d < |c.drains|
  {
    && |c'.drains| == |c.drains| && (forall i :: 0 <= i < |c.drains| && i != d ==> c'.drains[i] == c.drains[i])
    && (c'.drains[d].Awaiting? && !c'.drains[d].phase.Retrying? ==>
          FormedFrom(cfg, c', d, c.nextBatch, c.events, c.entities, atEvents))
  }

  lemma EventsForm(cfg: Config, c: Client, d: nat, keepalive: bool)
    requires d < |c.drains|
    ensures OneForms(cfg, c, StartEvents(cfg, c, d, keepalive), d, true)
    ensures c.entities == [] ==> OneForms(cfg, c, StartEvents(cfg, c, d, keepalive), d, false)
  {
  }

  lemma EntitiesForm(cfg: Config, c: Client, d: nat, keepalive: bool)
    requires d < |c.drains|
    ensures OneForms(cfg, c, StartEntities(cfg, c, d, keepalive), d, false)
  {
    EventsForm(cfg, c, d, keepalive);
  }

  lemma ResumeForms(cfg: Config, c: Client, d: nat, keepalive: bool, phase: Phase)
    requires d < |c.drains|
    ensures OneForms(cfg, c, Resume(cfg, c, d, keepalive, phase), d, phase.SendingEvents?)
  {
    match phase
    case Retrying(rest) => if rest == [] { EntitiesForm(cfg, c, d, keepalive); }
    case SendingEntities => EntitiesForm(cfg, c, d, keepalive);
    case SendingEvents => EventsForm(cfg, c, d, keepalive);
  }

  lemma FlushForms(cfg: Config, c: Client, keepalive: bool, d: nat)
    requires var c' := Flush(cfg, c, keepalive); Forms(c, c', d)
    ensures FormedFrom(cfg, Flush(cfg, c, keepalive), d, c.nextBatch, c.events, c.entities, AtEvents(c, d))
    ensures !AtEvents(c, d)
  {
    if keepalive || !c.flushing {
      var started := FlushStarted(c, keepalive);
      ResumeForms(cfg, started, |c.drains|, keepalive, Retrying(c.retries));
      assert Flush(cfg, c, keepalive) == Resume(cfg, started, |c.drains|, keepalive, Retrying(c.retries));
      hide Resume, Flush, FormedFrom;
      assert d == |c.drains|;
    }
  }

  lemma SettleForms(cfg: Config, c: Client, e: nat, outcome: Outcome, d: nat)
    requires e < |c.drains| && c.drains[e].Awaiting? && Forms(c, Settle(cfg, c, e, outcome), d)
    ensures FormedFrom(cfg, Settle(cfg, c, e, outcome), d, c.nextBatch, c.events, c.entities, AtEvents(c, d))
  {
    var Awaiting(keepalive, phase, b) := c.drains[e];
    var recorded := Recorded(WithDrain(c, e, Finished), b, outcome);
    ResumeForms(cfg, recorded, e, keepalive, phase);
    hide Resume, FormedFrom, Flat, Spliced;
    assert recorded.events == c.events && recorded.entities == c.entities && recorded.nextBatch == c.nextBatch;
    assert d == e;
  }

  /** The newest of `items`, as many as the cap allows. */
  function Newest(items: seq<Item>, cap: int): seq<Item> {
    if |items| <= cap then items else if cap <= 0 then [] else items[|items| - cap..]
  }

  /** The events of the queue once the step has captured its event. */
  function EventsAt(cfg: Config, c: Client, step: Step): seq<Item> {
    if step.Capturing? then Newest(c.events + [Event(c.nextSerial, step.name, step.actor)], cfg.maxQueue) else c.events
  }

  function EntitiesAt(c: Client, step: Step): seq<Item> {
    if step.Identifying? then c.entities + [Entity(c.nextSerial, step.kind, step.key)] else c.entities
  }

  /** A step that queues an item starts a periodic flush exactly when the queue then holds a full batch and none is running. */
  predicate Starts(cfg: Config, c: Client, step: Step) {
    && !c.flushing
    && ((step.Capturing? && |EventsAt(cfg, c, step)| >= cfg.maxBatchSize)
        || (step.Identifying? && |EntitiesAt(c, step)| >= cfg.maxBatchSize))
  }

  /** Capturing queues the item last and keeps the newest events; then it starts a flush or it does not. */
  lemma QueuesItem(cfg: Config, s: System, step: Step)
    requires step.Capturing? || step.Identifying?
    ensures var c, c' := s.client, Apply(cfg, s, step).client;
            && c'.nextSerial == c.nextSerial + 1
            && (if Starts(cfg, c, step) then |c'.drains| == |c.drains| + 1 && c'.drains[..|c.drains|] == c.drains && c'.flushing
                else c'.events == EventsAt(cfg, c, step) && c'.entities == EntitiesAt(c, step)
                     && c'.drains == c.drains && c'.flushing == c.flushing && c'.retries == c.retries)
  {
    var c := s.client;
    if step.Capturing? {
      QueuedIs(cfg, c, Event(c.nextSerial, step.name, step.actor));
      FlushStarts(cfg, EventQueued(cfg, c, Event(c.nextSerial, step.name, step.actor)));
    } else {
      FlushStarts(cfg, EntityQueued(c, Entity(c.nextSerial, step.kind, step.key)));
    }
    hide Flush, EventQueued, InFlight;
  }

  lemma QueuedIs(cfg: Config, c: Client, item: Item)
    ensures var q := EventQueued(cfg, c, item);
            && q.events == Newest(c.events + [item], cfg.maxQueue) && q.entities == c.entities && q.drains == c.drains
            && q.flushing == c.flushing && q.nextBatch == c.nextBatch && q.retries == c.retries && q.nextSerial == c.nextSerial + 1
  {
  }

  lemma FlushStarts(cfg: Config, c: Client)
    ensures var r := Flush(cfg, c, false);
            && (c.flushing ==> r == c) && r.nextSerial == c.nextSerial
            && (!c.flushing ==> |r.drains| == |c.drains| + 1 && r.drains[..|c.drains|] == c.drains && r.flushing)
  {
    hide Spliced;
  }

  /**
   * On every run, whichever step makes a drain form a batch from a queue: the batch is the oldest items of
   * that queue in order, at most 25 for a keepalive drain and at most the batch size for a periodic one,
   * fewer only when they are all; entities go before events, and event batches get a fresh id.
   */
  lemma FormsOldest(cfg: Config, steps: seq<Step>, step: Step, d: nat)
    requires var s := Run(cfg, steps); Forms(s.client, Apply(cfg, s, step).client, d)
    ensures var s := Run(cfg, steps);
            FormedFrom(cfg, Apply(cfg, s, step).client, d, s.client.nextBatch,
                       EventsAt(cfg, s.client, step), EntitiesAt(s.client, step), AtEvents(s.client, d))
  {
    var s := Run(cfg, steps);
    hide Run;
    StepForms(cfg, s, step, d);
  }

  lemma StepForms(cfg: Config, s: System, step: Step, d: nat)
    requires Forms(s.client, Apply(cfg, s, step).client, d)
    ensures FormedFrom(cfg, Apply(cfg, s, step).client, d, s.client.nextBatch,
                       EventsAt(cfg, s.client, step), EntitiesAt(s.client, step), AtEvents(s.client, d))
  {
    var c := s.client;
    hide FormedFrom, InFlight;
    match step
    case Capturing(name, actor) =>
      var item := Event(c.nextSerial, name, actor);
      QueuedIs(cfg, c, item);
      var q := EventQueued(cfg, c, item);
      hide Flush, EventQueued;
      FlushForms(cfg, q, false, d);
    case Identifying(kind, key) =>
      var q := EntityQueued(c, Entity(c.nextSerial, kind, key));
      hide Flush;
      FlushForms(cfg, q, false, d);
    case Flushing(keepalive) => FlushForms(cfg, c, keepalive, d);
    case Settling(e, outcome) => SettleForms(cfg, c, e, outcome, d);
    case _ =>
      hide Discard;
  }
}
