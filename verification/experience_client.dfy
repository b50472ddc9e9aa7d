/**
 * The bounded interaction queue of sdk/src/experience.ts, as values: one function per
 * synchronous piece of code. A suspended `captureExperience` call is a `Call`.
 */
module ExperienceClient {
  import opened Wrappers
  import opened Sequences

  const MAX_BATCH_EVENTS := 25
  const MINUTE_MS := 60_000

  datatype Event = Event(sequence: nat, kind: string)

  datatype Batch = Batch(id: nat, events: seq<Event>)

  datatype Outcome = Delivered | Retryable | Permanent

  /** `explicit` is a flush that was called while the observer was stopped. */
  datatype Call =
    | Ended
    | Draining(batch: Batch, explicit: bool)
    | Keepalive(batch: Batch)

  datatype Config = Config(maxQueue: nat, maxPerMinute: nat)

  /** The constructor raises both limits to a usable minimum. */
  predicate Usable(cfg: Config) {
    cfg.maxQueue >= MAX_BATCH_EVENTS && cfg.maxPerMinute >= 1
  }

  /** `history` and `batchOf` only record: all accepted times, and the id each event was given. */
  datatype Session = Session(
    pending: seq<Event>,
    retryBatches: seq<Batch>,
    acceptedAt: seq<int>,
    sequence: nat,
    started: bool,
    flushing: bool,
    inFlight: Option<Batch>,
    calls: seq<Call>,
    nextBatch: nat,
    history: seq<int>,
    batchOf: map<Event, nat>)

  const FRESH_SESSION := Session([], [], [], 0, false, false, None, [], 0, [], map[])

  function SumEvents(bs: seq<Batch>): nat {
    if bs == [] then 0 else |bs[0].events| + SumEvents(bs[1..])
  }

  function TotalQueued(pending: seq<Event>, retryBatches: seq<Batch>): nat {
    |pending| + SumEvents(retryBatches)
  }

  /** Drop the oldest pending events, then the newest retry batches, until there is room for one more. */
  function MakeRoom(pending: seq<Event>, retryBatches: seq<Batch>, cap: nat): (seq<Event>, seq<Batch>)
    requires cap >= 1
    decreases |pending| + |retryBatches|
  {
    if TotalQueued(pending, retryBatches) < cap then (pending, retryBatches)
    else if pending != [] then MakeRoom(pending[1..], retryBatches, cap)
    else MakeRoom(pending, retryBatches[..|retryBatches| - 1], cap)
  }

  function Recent(acceptedAt: seq<int>, now: int): seq<int> {
    Select(acceptedAt, (t: int) => t > now - MINUTE_MS)
  }

  function Enqueue(cfg: Config, s: Session, event: Event, now: int, allowed: bool): Session
    requires Usable(cfg)
  {
    if !s.started || !allowed then s
    else
      var recent := Recent(s.acceptedAt, now);
      if |recent| >= cfg.maxPerMinute then s.(acceptedAt := recent)
      else
        var (pending, retryBatches) := MakeRoom(s.pending, s.retryBatches, cfg.maxQueue);
        s.(acceptedAt := recent + [now],
           history := s.history + [now],
           pending := pending + [event],
           retryBatches := retryBatches)
  }

  /** A handler: `common()` takes the next sequence number, then the event is enqueued. */
  function Signal(cfg: Config, s: Session, kind: string, now: int, allowed: bool): Session
    requires Usable(cfg)
  {
    Enqueue(cfg, s.(sequence := s.sequence + 1), Event(s.sequence + 1, kind), now, allowed)
  }

  function ClearQueue(s: Session): Session {
    s.(pending := [], retryBatches := [])
  }

  function BatchTaken(s: Session): nat {
    if |s.pending| < MAX_BATCH_EVENTS then |s.pending| else MAX_BATCH_EVENTS
  }

  function Assigned(batchOf: map<Event, nat>, es: seq<Event>, id: nat): map<Event, nat> {
    batchOf + map e | e in es :: id
  }

  /** The next batch: the first retry, else up to 25 pending events under a new id. */
  function NextBatch(s: Session): (Session, Option<Batch>) {
    if s.retryBatches != [] then (s.(retryBatches := s.retryBatches[1..]), Some(s.retryBatches[0]))
    else if s.pending == [] then (s, None)
    else
      var k := BatchTaken(s);
      (s.(pending := s.pending[k..],
          nextBatch := s.nextBatch + 1,
          batchOf := Assigned(s.batchOf, s.pending[..k], s.nextBatch)),
       Some(Batch(s.nextBatch, s.pending[..k])))
  }

  predicate CanRetry(cfg: Config, s: Session, b: Batch) {
    TotalQueued(s.pending, s.retryBatches) + |b.events| <= cfg.maxQueue
  }

  function Requeue(s: Session, b: Batch): Session {
    s.(retryBatches := [b] + s.retryBatches)
  }

  /** One round of the drain loop for call `c`: send the next batch or leave the loop. */
  function Drain(s: Session, c: nat, explicit: bool): Session
    requires c < |s.calls|
  {
    if !s.started && !explicit then s.(flushing := false, calls := s.calls[c := Ended])
    else
      var (s', next) := NextBatch(s);
      match next
      case None => s'.(flushing := false, calls := s'.calls[c := Ended])
      case Some(b) => s'.(inFlight := Some(b), calls := s'.calls[c := Draining(b, explicit)])
  }

  function Flush(s: Session, keepalive: bool, allowed: bool): Session {
    if !allowed then ClearQueue(s)
    else if keepalive then
      if s.inFlight.Some? then s.(calls := s.calls + [Keepalive(s.inFlight.value)])
      else
        var (s', next) := NextBatch(s);
        match next
        case None => s'
        case Some(b) => s'.(calls := s'.calls + [Keepalive(b)])
    else if s.flushing then s
    else Drain(s.(flushing := true, calls := s.calls + [Ended]), |s.calls|, !s.started)
  }

  function Landed(s: Session, b: Batch): Session {
    if s.inFlight == Some(b) then s.(inFlight := None) else s
  }

  /** The continuation of a suspended call. */
  function Settle(cfg: Config, s: Session, c: nat, outcome: Outcome): Session
    requires c < |s.calls| && !s.calls[c].Ended?
  {
    match s.calls[c]
    case Draining(b, explicit) =>
      if outcome == Delivered then Drain(Landed(s, b), c, explicit)
      else
        var kept := if outcome == Retryable && CanRetry(cfg, s, b) then Requeue(s, b) else s;
        Landed(kept, b).(flushing := false, calls := s.calls[c := Ended])
    case Keepalive(b) =>
      var ended := s.(calls := s.calls[c := Ended]);
      if outcome == Retryable && s.inFlight != Some(b) && CanRetry(cfg, s, b) then Requeue(ended, b) else ended
  }

  function Start(s: Session, allowed: bool): Session {
    if s.started || !allowed then s else s.(started := true)
  }

  function Stop(s: Session, allowed: bool): Session {
    if !s.started then s
    else if allowed then s.(started := false)
    else ClearQueue(s.(started := false))
  }

  datatype Step =
    | Signalling(kind: string, now: int, allowed: bool)
    | Flushing(keepalive: bool, allowed: bool)
    | Settling(call: nat, outcome: Outcome)
    | Starting(allowed: bool)
    | Stopping(allowed: bool)

  predicate Enabled(s: Session, step: Step) {
    step.Settling? ==> step.call < |s.calls| && !s.calls[step.call].Ended?
  }

  function Apply(cfg: Config, s: Session, step: Step): Session
    requires Usable(cfg)
  {
    if !Enabled(s, step) then s
    else match step
      case Signalling(kind, now, allowed) => Signal(cfg, s, kind, now, allowed)
      case Flushing(keepalive, allowed) => Flush(s, keepalive, allowed)
      case Settling(call, outcome) => Settle(cfg, s, call, outcome)
      case Starting(allowed) => Start(s, allowed)
      case Stopping(allowed) => Stop(s, allowed)
  }

  function Run(cfg: Config, steps: seq<Step>): Session
    requires Usable(cfg)
  {
    if steps == [] then FRESH_SESSION
    else Apply(cfg, Run(cfg, steps[..|steps| - 1]), steps[|steps| - 1])
  }
}
