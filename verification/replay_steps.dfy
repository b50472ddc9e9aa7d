/** What every step of the session recorder seals, evicts, sends and ends, with the limits of the protocol. */
module ReplaySteps {
  import opened Wrappers
  import opened ReplayRecorder
  import opened ReplayDelivery

  // ----- what is said of a step -----

  /** A stop can begin: none is under way, and the session is not complete. */
  predicate Stops(r: Recorder) { !r.finalized && r.stop == NotStopping }

  function OneChunk(sequence: nat, events: seq<Event>): seq<Chunk> {
    if events == [] then [] else [Chunk(sequence, events)]
  }

  /** From `r` to `t` these chunks were sealed, and these events are left for the next one. */
  predicate Seals(r: Recorder, t: Recorder, chunks: seq<Chunk>, left: seq<Event>) {
    && t.sequence == r.sequence + |chunks| && t.sealing == r.sealing + chunks && t.log.sealed == r.log.sealed + chunks
    && t.current == left && (left == [] ==> t.currentBytes == 2 || r.current == [])
  }

  /** From `r` to `t` a stop began, unless it cannot; it waits for every chunk sealed so far. */
  predicate Begins(r: Recorder, t: Recorder) {
    if Stops(r) then t.detached && t.stop == Waiting && t.waiters == r.waiters + [Waiter(t.sequence, false, true)]
    else t.stop == r.stop && t.waiters == r.waiters
  }

  /** Neither uploads nor what was recorded of them changed. */
  predicate SameUploads(r: Recorder, t: Recorder) {
    && t.pending == r.pending && t.drains == r.drains && t.uploading == r.uploading && t.finalized == r.finalized
    && t.log.acked == r.log.acked && t.log.evicted == r.log.evicted && t.log.sent == r.log.sent && t.log.completes == r.log.completes
  }

  /** Neither events nor seal jobs changed. */
  predicate SameEvents(r: Recorder, t: Recorder) {
    && t.current == r.current && t.currentBytes == r.currentBytes && t.sequence == r.sequence
    && t.acceptedBytes == r.acceptedBytes && t.acceptedEvents == r.acceptedEvents && t.detached == r.detached
    && t.log.accepted == r.log.accepted && t.log.sealed == r.log.sealed
  }

  predicate SameAccepted(r: Recorder, t: Recorder) {
    t.log.accepted == r.log.accepted && t.acceptedEvents == r.acceptedEvents && t.acceptedBytes == r.acceptedBytes
  }

  /** An event does not fit: it alone is over 512 KiB with its separator, or the recorder has detached. */
  predicate Ignores(r: Recorder, e: Event) { r.detached || |e| + 1 > 524_288 }

  /** The current chunk has 500 events, or would grow over 512 KiB. */
  predicate IsFull(r: Recorder, e: Event) { |r.current| >= 500 || r.currentBytes + |e| + 1 > 524_288 }

  /** The session has 120 chunks or 50,000 events, or would grow over 20 MiB. */
  predicate IsOver(r: Recorder, sequence: nat, e: Event) {
    sequence >= 120 || r.acceptedEvents >= 50_000 || r.acceptedBytes + |e| + 1 > 20_971_520
  }

  /** With this event the session has 50,000 events or 20 MiB. */
  predicate IsLast(r: Recorder, e: Event) {
    r.acceptedEvents + 1 >= 50_000 || r.acceptedBytes + |e| + 1 >= 20_971_520
  }

  predicate AcceptsEvent(r: Recorder, e: Event, t: Recorder) {
    if Ignores(r, e) then t == r
    else
      var first := if IsFull(r, e) then OneChunk(r.sequence, r.current) else [];
      var left := if IsFull(r, e) then [] else r.current;
      var next := r.sequence + |first|;
      && SameUploads(r, t)
      && if IsOver(r, next, e) then
           && SameAccepted(r, t) && t.detached && Begins(r, t)
           && (if Stops(r) then Seals(r, t, first + OneChunk(next, left), []) else Seals(r, t, first, left))
         else
           && t.log.accepted == r.log.accepted + [e] && t.acceptedEvents == r.acceptedEvents + 1
           && t.acceptedBytes == r.acceptedBytes + |e| + 1
           && if IsLast(r, e) then
                && t.detached && Begins(r, t)
                && (if Stops(r) then Seals(r, t, first + [Chunk(next, left + [e])], []) else Seals(r, t, first, left + [e]))
              else !t.detached && t.stop == r.stop && t.waiters == r.waiters && Seals(r, t, first, left + [e])
  }

  /** The oldest chunks are dropped from the queue, just enough to keep it within 5 MiB. */
  predicate Evicts(queued: seq<Chunk>, i: nat) {
    i <= |queued| && QueuedBytes(queued[i..]) <= 5_242_880 && (i > 0 ==> QueuedBytes(queued[i - 1..]) > 5_242_880)
  }

  predicate Hashes(r: Recorder, t: Recorder)
    requires r.sealing != []
  {
    var queued := r.pending + [r.sealing[0]];
    var i := |queued| - |t.pending|;
    && i >= 0 && Evicts(queued, i) && t.pending == queued[i..] && t.log.evicted == r.log.evicted + queued[..i]
    && t.sealing == r.sealing[1..] && SameEvents(r, t) && t.waiters == r.waiters && t.drains == r.drains && t.uploading == r.uploading
    && t.stop == r.stop && t.finalized == r.finalized
    && t.log.acked == r.log.acked && t.log.sent == r.log.sent && t.log.completes == r.log.completes
  }

  /** The running drain ends; a stop that waited for it goes on. */
  predicate Ends(r: Recorder, t: Recorder)
    requires r.drains != []
  {
    t.drains == r.drains[1..] && t.uploading.None? && t.log.sent == r.log.sent && t.stop == if r.drains[0].stop then Drained else r.stop
  }

  /** The running drain sends the oldest chunk, or ends: with nothing left, or with more than 60 KiB for a page that goes away. */
  predicate GoesOn(r: Recorder, t: Recorder, overhead: nat)
    requires r.drains != []
  {
    && t.pending == r.pending
    && if r.pending == [] || (r.drains[0].keepalive && |Serialized(r.pending[0].events)| + overhead > 61_440) then Ends(r, t)
       else t.drains == r.drains && t.stop == r.stop && t.uploading == Some(r.pending[0]) && t.log.sent == r.log.sent + {r.pending[0]}
  }

  /** Nothing but the running drain and the queue changed. */
  predicate SameRest(r: Recorder, t: Recorder) {
    && SameEvents(r, t) && t.sealing == r.sealing && t.waiters == r.waiters && t.finalized == r.finalized
    && t.log.evicted == r.log.evicted && t.log.completes == r.log.completes
  }

  ghost predicate Follows(r: Recorder, step: Step, t: Recorder) {
    match step
    case Accepting(e) => AcceptsEvent(r, e, t)
    case Flushing(keepalive) =>
      if r.detached then t == r
      else
        && SameUploads(r, t) && SameAccepted(r, t) && !t.detached && t.stop == r.stop
        && Seals(r, t, OneChunk(r.sequence, r.current), []) && t.waiters == r.waiters + [Waiter(t.sequence, keepalive, false)]
    case Stopping =>
      if !Stops(r) then t == r
      else SameUploads(r, t) && SameAccepted(r, t) && Begins(r, t) && Seals(r, t, OneChunk(r.sequence, r.current), [])
    case Hashing => r.sealing != [] && Hashes(r, t)
    case Starting(w) =>
      && w < |r.waiters| && r.sequence >= r.waiters[w].target + |r.sealing|
      && t == r.(waiters := r.waiters[..w] + r.waiters[w + 1..],
                 drains := r.drains + [Drain(r.waiters[w].keepalive, r.waiters[w].stop)],
                 stop := if r.waiters[w].stop then Draining else r.stop)
    case Proceeding(overhead) => r.drains != [] && SameRest(r, t) && t.log.acked == r.log.acked && GoesOn(r, t, overhead)
    case Acknowledging(overhead) =>
      && r.drains != [] && r.uploading.Some? && SameRest(r, t) && t.log.acked == r.log.acked + [r.uploading.value]
      && var shifted := r.(pending := if r.pending == [] then [] else r.pending[1..]);
      if r.drains[0].keepalive then t.pending == shifted.pending && Ends(shifted, t) else GoesOn(shifted, t, overhead)
    case Failing =>
      && r.drains != []
      && t == r.(drains := r.drains[1..], uploading := None, stop := if r.drains[0].stop then NotStopping else r.stop)
    case Finishing =>
      if r.sequence > 0 then t == r.(stop := Completing, log := r.log.(completes := r.log.completes + [(r.sequence - 1, r.log.acked)]))
      else t == r.(stop := NotStopping, finalized := true)
    case Confirming(ok) => t == r.(stop := NotStopping, finalized := ok)
    case Arriving(_) => t == r
  }

  // ----- the steps -----

  lemma StopBegins(r: Recorder)
    ensures var t := StopCall(r);
            if !Stops(r) then t == r
            else SameUploads(r, t) && SameAccepted(r, t) && Begins(r, t) && Seals(r, t, OneChunk(r.sequence, r.current), [])
  {
  }

  lemma Accepts(r: Recorder, e: Event)
    ensures AcceptsEvent(r, e, Accept(r, e))
  {
    if !Ignores(r, e) {
      var ready := Ready(r, e);
      StopBegins(ready.(detached := true));
      StopBegins(Push(ready, e).(detached := true));
      hide StopCall;
    }
  }

  lemma {:induction false} EvictsEnough(queued: seq<Chunk>)
    ensures var i := |queued| - |Evict(queued)|; i >= 0 && Evicts(queued, i) && Evict(queued) == queued[i..]
  {
    hide QueuedBytes;
    if QueuedBytes(queued) > MAX_QUEUE_BYTES && queued != [] {
      EvictsEnough(queued[1..]);
      var i := |queued| - |Evict(queued)|;
      assert queued[1..][i - 1..] == queued[i..];
      assert i > 1 ==> queued[1..][i - 2..] == queued[i - 1..];
      assert i == 1 ==> queued[0..] == queued;
    } else {
      assert queued[0..] == queued;
    }
  }

  lemma FlushSeals(r: Recorder, keepalive: bool)
    ensures Follows(r, Flushing(keepalive), FlushCall(r, keepalive))
  {
  }

  lemma Queues(r: Recorder)
    requires r.sealing != []
    ensures Hashes(r, Hashed(r))
  {
    hide QueuedBytes, Evict, Evicts;
    EvictsEnough(r.pending + [r.sealing[0]]);
  }

  lemma DrainGoesOn(r: Recorder, overhead: nat)
    requires r.drains != []
    ensures Follows(r, Proceeding(overhead), Proceed(r, overhead))
    ensures r.uploading.Some? ==> Follows(r, Acknowledging(overhead), Uploaded(r, overhead))
  {
    hide QueuedBytes, Serialized;
  }

  lemma OtherFollows(s: System, step: Step)
    requires Enabled(s, step) && (step.Starting? || step.Failing? || step.Finishing? || step.Confirming? || step.Arriving?)
    ensures Follows(s.recorder, step, RecorderAfter(s, step))
  {
    hide QueuedBytes, Serialized;
  }

  lemma StepFollows(s: System, step: Step)
    requires Enabled(s, step)
    ensures Follows(s.recorder, step, RecorderAfter(s, step))
  {
    hide AcceptsEvent, Accept, Hashes, Hashed, Proceed, Uploaded, FlushCall, StopCall, Ends, GoesOn, SameRest, SameUploads, SameEvents;
    var r := s.recorder;
    match step
    case Accepting(e) => Accepts(r, e);
    case Flushing(keepalive) => FlushSeals(r, keepalive);
    case Stopping => StopBegins(r);
    case Hashing => Queues(r);
    case Proceeding(overhead) => DrainGoesOn(r, overhead);
    case Acknowledging(overhead) => DrainGoesOn(r, overhead);
    case _ => OtherFollows(s, step);
  }

  /** On every run: what the last step did. */
  lemma RunFollows(steps: seq<Step>)
    requires steps != []
    ensures var s, step := Run(steps[..|steps| - 1]), steps[|steps| - 1];
            if Enabled(s, step) then Follows(s.recorder, step, Run(steps).recorder) else Run(steps) == s
  {
    hide Follows, RecorderAfter;
    var s, step := Run(steps[..|steps| - 1]), steps[|steps| - 1];
    if Enabled(s, step) { StepFollows(s, step); }
  }
}
