/**
 * The session-replay recorder of sdk/src/replay.ts, as values: the chunker, the chain of
 * seal jobs, the queue of serialized drains and the bounded upload queue.
 */
module ReplayRecorder {
  import opened Wrappers

  const MAX_CHUNK_BYTES := 512 * 1024
  const MAX_CHUNK_EVENTS := 500
  const MAX_QUEUE_BYTES := 5 * 1024 * 1024
  const MAX_SESSION_BYTES := 20 * 1024 * 1024
  const MAX_SESSION_EVENTS := 50_000
  const MAX_SESSION_CHUNKS := 120
  const MAX_KEEPALIVE_REQUEST_BYTES := 60 * 1024

  /** A sanitized event as its JSON text, one character a byte. */
  type Event = string

  datatype Chunk = Chunk(sequence: nat, events: seq<Event>)

  /** A flush or a stop that awaits the first `target` seal jobs. */
  datatype Waiter = Waiter(target: nat, keepalive: bool, stop: bool)

  /** A drain in the mutex chain; the first one is running. */
  datatype Drain = Drain(keepalive: bool, stop: bool)

  /** How far `stopInternal` is. */
  datatype Stop = NotStopping | Waiting | Draining | Drained | Completing

  /**
   * `accepted`, `sealed`, `acked`, `evicted` and `sent` only record: everything accepted, every
   * chunk sealed, acknowledged, evicted, and every chunk ever put on the wire; `completes` are
   * the `last_sequence` values sent, with the chunks acknowledged at that time.
   */
  datatype Recorder = Recorder(
    current: seq<Event>,
    currentBytes: nat,
    pending: seq<Chunk>,
    sequence: nat,
    acceptedBytes: nat,
    acceptedEvents: nat,
    detached: bool,
    finalized: bool,
    stop: Stop,
    sealing: seq<Chunk>,
    waiters: seq<Waiter>,
    drains: seq<Drain>,
    uploading: Option<Chunk>,
    log: Log)

  datatype Log = Log(
    accepted: seq<Event>,
    sealed: seq<Chunk>,
    acked: seq<Chunk>,
    evicted: seq<Chunk>,
    sent: set<Chunk>,
    completes: seq<(int, seq<Chunk>)>)

  const FRESH_RECORDER :=
    Recorder([], 2, [], 0, 0, 0, false, false, NotStopping, [], [], [], None, Log([], [], [], [], {}, []))

  // ----- sizes -----

  /** What the chunker books for one event: its JSON and one separator. */
  function Booked(e: Event): nat { |e| + 1 }

  function BookedAll(es: seq<Event>): nat {
    if es == [] then 0 else BookedAll(es[..|es| - 1]) + Booked(es[|es| - 1])
  }

  function Joined(es: seq<Event>): string {
    if es == [] then ""
    else if |es| == 1 then es[0]
    else Joined(es[..|es| - 1]) + "," + es[|es| - 1]
  }

  /** `JSON.stringify` of the array of events. */
  function Serialized(es: seq<Event>): string {
    "[" + Joined(es) + "]"
  }

  function ChunkBytes(c: Chunk): nat { |Serialized(c.events)| }

  function QueuedBytes(cs: seq<Chunk>): nat {
    if cs == [] then 0 else ChunkBytes(cs[0]) + QueuedBytes(cs[1..])
  }

  // ----- accepting and sealing -----

  function Seal(r: Recorder): Recorder {
    if r.current == [] then r
    else
      var chunk := Chunk(r.sequence, r.current);
      r.(current := [], currentBytes := 2, sequence := r.sequence + 1,
         sealing := r.sealing + [chunk],
         log := r.log.(sealed := r.log.sealed + [chunk]))
  }

  /** `stop()`: at most one stop is under way; it detaches, seals and waits for the seal jobs. */
  function StopCall(r: Recorder): Recorder {
    if r.finalized || r.stop != NotStopping then r
    else
      var sealed := Seal(r.(detached := true));
      sealed.(stop := Waiting, waiters := sealed.waiters + [Waiter(sealed.sequence, false, true)])
  }

  predicate MustSealFirst(r: Recorder, e: Event) {
    |r.current| >= MAX_CHUNK_EVENTS || r.currentBytes + Booked(e) > MAX_CHUNK_BYTES
  }

  predicate SessionFull(r: Recorder, e: Event) {
    || r.sequence >= MAX_SESSION_CHUNKS
    || r.acceptedEvents >= MAX_SESSION_EVENTS
    || r.acceptedBytes + Booked(e) > MAX_SESSION_BYTES
  }

  function Push(r: Recorder, e: Event): Recorder {
    r.(current := r.current + [e],
       currentBytes := r.currentBytes + Booked(e),
       acceptedBytes := r.acceptedBytes + Booked(e),
       acceptedEvents := r.acceptedEvents + 1,
       log := r.log.(accepted := r.log.accepted + [e]))
  }

  /** Seal first when the event does not fit the current chunk. */
  function Ready(r: Recorder, e: Event): Recorder {
    if MustSealFirst(r, e) then Seal(r) else r
  }

  /** Reaching a session limit detaches and stops. */
  function CloseIfFull(r: Recorder): Recorder {
    if r.acceptedEvents >= MAX_SESSION_EVENTS || r.acceptedBytes >= MAX_SESSION_BYTES
    then StopCall(r.(detached := true)) else r
  }

  function Admit(r: Recorder, e: Event): Recorder {
    if SessionFull(r, e) then StopCall(r.(detached := true)) else CloseIfFull(Push(r, e))
  }

  function Accept(r: Recorder, e: Event): Recorder {
    if r.detached || Booked(e) > MAX_CHUNK_BYTES then r else Admit(Ready(r, e), e)
  }

  /** `flushInternal`: seal what is there and wait for the seal jobs. */
  function FlushCall(r: Recorder, keepalive: bool): Recorder {
    if r.detached then r
    else
      var sealed := Seal(r);
      sealed.(waiters := sealed.waiters + [Waiter(sealed.sequence, keepalive, false)])
  }

  // ----- the seal chain and the upload queue -----

  /** Shift the oldest chunks until the queue fits its byte cap. */
  function Evict(pending: seq<Chunk>): (kept: seq<Chunk>)
    ensures |kept| <= |pending| && kept == pending[|pending| - |kept|..]
    ensures QueuedBytes(kept) <= MAX_QUEUE_BYTES
  {
    if QueuedBytes(pending) > MAX_QUEUE_BYTES && pending != [] then Evict(pending[1..]) else pending
  }

  /** The first seal job ends: its chunk joins the upload queue, which may evict. */
  function Hashed(r: Recorder): Recorder
    requires r.sealing != []
  {
    var queued := r.pending + [r.sealing[0]];
    var kept := Evict(queued);
    r.(sealing := r.sealing[1..], pending := kept,
       log := r.log.(evicted := r.log.evicted + queued[..|queued| - |kept|]))
  }

  predicate CanStart(r: Recorder, w: nat) {
    w < |r.waiters| && r.sequence - |r.sealing| >= r.waiters[w].target
  }

  /** A waiter whose seal jobs are done enters the mutex chain. */
  function Start(r: Recorder, w: nat): Recorder
    requires CanStart(r, w)
  {
    var x := r.waiters[w];
    r.(waiters := r.waiters[..w] + r.waiters[w + 1..],
       drains := r.drains + [Drain(x.keepalive, x.stop)],
       stop := if x.stop then Draining else r.stop)
  }

  /** The running drain ends normally. */
  function EndDrain(r: Recorder): Recorder
    requires r.drains != []
  {
    r.(drains := r.drains[1..], uploading := None, stop := if r.drains[0].stop then Drained else r.stop)
  }

  /** The loop of the running drain up to its next `await`; `overhead` is the request body around the events. */
  function Proceed(r: Recorder, overhead: nat): Recorder
    requires r.drains != []
  {
    if r.pending == [] then EndDrain(r)
    else if r.drains[0].keepalive && ChunkBytes(r.pending[0]) + overhead > MAX_KEEPALIVE_REQUEST_BYTES then EndDrain(r)
    else r.(uploading := Some(r.pending[0]), log := r.log.(sent := r.log.sent + {r.pending[0]}))
  }

  /** The request was acknowledged: the first chunk of the queue is shifted. */
  function Uploaded(r: Recorder, overhead: nat): Recorder
    requires r.drains != [] && r.uploading.Some?
  {
    var shifted := r.(uploading := None,
                      pending := if r.pending == [] then [] else r.pending[1..],
                      log := r.log.(acked := r.log.acked + [r.uploading.value]));
    if r.drains[0].keepalive then EndDrain(shifted) else Proceed(shifted, overhead)
  }

  /** Every attempt failed: the drain is over, the chunk stays queued, a stop may be called again. */
  function UploadFailed(r: Recorder): Recorder
    requires r.drains != [] && r.uploading.Some?
  {
    r.(drains := r.drains[1..], uploading := None, stop := if r.drains[0].stop then NotStopping else r.stop)
  }

  /** The end of `stopInternal`: a session with chunks asks for completion. */
  function Complete(r: Recorder): Recorder
    requires r.stop == Drained
  {
    if r.sequence > 0 then
      r.(stop := Completing, log := r.log.(completes := r.log.completes + [(r.sequence - 1, r.log.acked)]))
    else r.(stop := NotStopping, finalized := true)
  }

  function Completed(r: Recorder, ok: bool): Recorder
    requires r.stop == Completing
  {
    r.(stop := NotStopping, finalized := ok)
  }

  // ----- runs -----

  /** `stored` are the chunk numbers the server holds. */
  datatype System = System(recorder: Recorder, stored: set<nat>)

  const FRESH_SYSTEM := System(FRESH_RECORDER, {})

  datatype Step =
    | Accepting(event: Event)
    | Flushing(keepalive: bool)
    | Stopping
    | Hashing
    | Starting(waiter: nat)
    | Proceeding(overhead: nat)
    | Acknowledging(overhead: nat)
    | Failing
    | Finishing
    | Confirming(ok: bool)
    | Arriving(chunk: Chunk)

  /** An acknowledgement needs the chunk to have arrived; anything ever sent may arrive at any time. */
  predicate Enabled(s: System, step: Step) {
    var r := s.recorder;
    match step
    case Hashing => r.sealing != []
    case Starting(w) => CanStart(r, w)
    case Proceeding(_) => r.drains != [] && r.uploading.None?
    case Acknowledging(_) => r.drains != [] && r.uploading.Some? && r.uploading.value.sequence in s.stored
    case Failing => r.drains != [] && r.uploading.Some?
    case Finishing => r.stop == Drained
    case Confirming(_) => r.stop == Completing
    case Arriving(c) => c in r.log.sent
    case _ => true
  }

  function RecorderAfter(s: System, step: Step): Recorder
    requires Enabled(s, step)
  {
    var r := s.recorder;
    match step
    case Accepting(e) => Accept(r, e)
    case Flushing(keepalive) => FlushCall(r, keepalive)
    case Stopping => StopCall(r)
    case Hashing => Hashed(r)
    case Starting(w) => Start(r, w)
    case Proceeding(overhead) => Proceed(r, overhead)
    case Acknowledging(overhead) => Uploaded(r, overhead)
    case Failing => UploadFailed(r)
    case Finishing => Complete(r)
    case Confirming(ok) => Completed(r, ok)
    case Arriving(_) => r
  }

  function Apply(s: System, step: Step): System {
    if !Enabled(s, step) then s
    else System(RecorderAfter(s, step), if step.Arriving? then s.stored + {step.chunk.sequence} else s.stored)
  }

  function Run(steps: seq<Step>): System {
    if steps == [] then FRESH_SYSTEM else Apply(Run(steps[..|steps| - 1]), steps[|steps| - 1])
  }
}
