/** What the replay recorder keeps on every run: its accounting, and delivery in order. */
module ReplayDelivery {
  import opened Wrappers
  import opened ReplayRecorder

  // ---------------------------------------------------------------------------
  // Chunk accounting
  // ---------------------------------------------------------------------------

  function AllEvents(cs: seq<Chunk>): seq<Event> {
    if cs == [] then [] else AllEvents(cs[..|cs| - 1]) + cs[|cs| - 1].events
  }

  lemma {:induction false} JoinedLength(es: seq<Event>)
    requires es != []
    ensures |Joined(es)| == BookedAll(es) - 1
  {
    if |es| == 1 {
      assert es[..0] == [];
    } else {
      JoinedLength(es[..|es| - 1]);
    }
  }

  /** The JSON text of a chunk is one byte shorter than the two brackets plus what was booked. */
  lemma SerializedLength(es: seq<Event>)
    requires es != []
    ensures |Serialized(es)| == BookedAll(es) + 1
  {
    JoinedLength(es);
  }

  /** Events of one chunk: 1 to 500 of them, each fits alone, and several fit together. */
  predicate ChunkShape(es: seq<Event>) {
    && |es| <= MAX_CHUNK_EVENTS
    && (forall e :: e in es ==> Booked(e) <= MAX_CHUNK_BYTES)
    && (|es| >= 2 ==> 2 + BookedAll(es) <= MAX_CHUNK_BYTES)
  }

  ghost predicate Accounted(r: Recorder) {
    && r.log.accepted == AllEvents(r.log.sealed) + r.current
    && |r.log.sealed| == r.sequence <= MAX_SESSION_CHUNKS
    && (r.sequence == MAX_SESSION_CHUNKS ==> r.current == [])
    && (forall i :: 0 <= i < |r.log.sealed| ==>
          r.log.sealed[i].sequence == i && r.log.sealed[i].events != [] && ChunkShape(r.log.sealed[i].events))
    && ChunkShape(r.current)
    && r.currentBytes == 2 + BookedAll(r.current)
    && r.acceptedEvents == |r.log.accepted| <= MAX_SESSION_EVENTS
    && r.acceptedBytes == BookedAll(r.log.accepted) <= MAX_SESSION_BYTES
  }

  lemma SealAccounted(r: Recorder)
    requires Accounted(r) && (r.current != [] ==> r.sequence < MAX_SESSION_CHUNKS)
    ensures Accounted(Seal(r))
  {
    if r.current != [] {
      var sealed := Seal(r).log.sealed;
      assert sealed[..|sealed| - 1] == r.log.sealed;
    }
  }

  lemma ShapePush(es: seq<Event>, e: Event)
    requires ChunkShape(es) && |es| < MAX_CHUNK_EVENTS && Booked(e) <= MAX_CHUNK_BYTES
    requires es != [] ==> 2 + BookedAll(es) + Booked(e) <= MAX_CHUNK_BYTES
    ensures BookedAll(es + [e]) == BookedAll(es) + Booked(e) && ChunkShape(es + [e])
  {
    BookedPush(es, e);
    hide BookedAll;
  }

  lemma BookedPush(es: seq<Event>, e: Event)
    ensures BookedAll(es + [e]) == BookedAll(es) + Booked(e)
  {
    assert (es + [e])[..|es|] == es;
  }

  lemma PushFields(r: Recorder, e: Event)
    ensures var q := Push(r, e);
            && q.current == r.current + [e] && q.currentBytes == r.currentBytes + Booked(e)
            && q.acceptedBytes == r.acceptedBytes + Booked(e) && q.acceptedEvents == r.acceptedEvents + 1
            && q.log.accepted == r.log.accepted + [e] && q.log.sealed == r.log.sealed && q.sequence == r.sequence
  {
  }

  lemma PushAccounted(r: Recorder, e: Event)
    requires Accounted(r) && Booked(e) <= MAX_CHUNK_BYTES && !SessionFull(r, e)
    requires |r.current| < MAX_CHUNK_EVENTS && (r.current != [] ==> r.currentBytes + Booked(e) <= MAX_CHUNK_BYTES)
    ensures Accounted(Push(r, e))
  {
    hide BookedAll, ChunkShape, AllEvents;
    ShapePush(r.current, e);
    BookedPush(r.log.accepted, e);
    PushFields(r, e);
    hide Push;
    assert Push(r, e).log.accepted == AllEvents(r.log.sealed) + Push(r, e).current;
  }

  /** Accounting only looks at what was accepted and sealed. */
  lemma AccountedSame(r: Recorder, t: Recorder)
    requires Accounted(r) && t.current == r.current && t.currentBytes == r.currentBytes && t.sequence == r.sequence
    requires t.acceptedBytes == r.acceptedBytes && t.acceptedEvents == r.acceptedEvents
    requires t.log.accepted == r.log.accepted && t.log.sealed == r.log.sealed
    ensures Accounted(t)
  {
    hide BookedAll, ChunkShape, AllEvents;
  }

  lemma ReadyAccounted(r: Recorder, e: Event)
    requires Accounted(r) && Booked(e) <= MAX_CHUNK_BYTES
    ensures Accounted(Ready(r, e))
    ensures var q := Ready(r, e);
            |q.current| < MAX_CHUNK_EVENTS && (q.current != [] ==> q.currentBytes + Booked(e) <= MAX_CHUNK_BYTES)
  {
    SealAccounted(r);
  }

  // ---------------------------------------------------------------------------
  // Delivery
  // ---------------------------------------------------------------------------

  /** Everything sealed is acknowledged, queued or being sealed, in this order. */
  ghost predicate InOrder(r: Recorder) {
    r.log.acked + r.pending + r.sealing == r.log.sealed
  }

  /** While nothing was evicted, the upload in flight is the head of the queue, and nothing beyond it was sent. */
  ghost predicate HeadFirst(r: Recorder) {
    && InOrder(r)
    && (r.uploading.Some? ==> r.pending != [] && r.uploading.value == r.pending[0])
    && (forall c :: c in r.log.sent ==> c.sequence <= |r.log.acked|)
    && (r.uploading.Some? ==> r.uploading.value in r.log.sent)
  }

  ghost predicate Counted(r: Recorder) {
    && |r.log.acked| + |r.log.evicted| + |r.pending| + |r.sealing| == |r.log.sealed|
    && (r.uploading.Some? ==> r.pending != [] && r.drains != [])
    && (forall c :: c in r.pending || c in r.sealing ==> c.events != [] && ChunkShape(c.events))
  }

  /** How far a stop can be, given what is left to do. */
  ghost predicate StopSound(r: Recorder) {
    && (r.detached ==> r.current == [])
    && (forall w :: w in r.waiters ==> w.target <= r.sequence)
    && (forall w :: w in r.waiters && w.stop ==> r.detached && w.target == r.sequence && !w.keepalive)
    && (forall d :: d in r.drains && d.stop ==> r.detached && r.sealing == [] && !d.keepalive)
    && (r.stop == Drained || r.stop == Completing ==> r.detached && r.sealing == [] && r.pending == [])
    && (r.stop != NotStopping || r.finalized || r.log.completes != [] ==> r.detached)
  }

  /** Every completion request names the last chunk, and came after all of them were acknowledged. */
  ghost predicate CompletesSound(r: Recorder) {
    forall k :: k in r.log.completes ==> k.0 == r.sequence - 1 && k.1 == r.log.acked && r.pending == [] && r.sealing == [] && r.detached
  }

  ghost predicate Sound(r: Recorder) {
    && Accounted(r) && Counted(r) && StopSound(r) && CompletesSound(r)
    && (r.log.evicted == [] ==> HeadFirst(r))
  }

  // ----- sealing, accepting, stopping, flushing -----

  lemma SealSound(r: Recorder)
    requires Sound(r) && !r.detached
    ensures Sound(Seal(r)) && !Seal(r).detached && Seal(r).current == []
  {
    SealAccounted(r);
    if r.current != [] {
      var r' := Seal(r);
      var chunk := Chunk(r.sequence, r.current);
      if r.log.evicted == [] {
        assert r'.log.acked + r'.pending + r'.sealing == (r.log.acked + r.pending + r.sealing) + [chunk];
      }
    }
  }

  lemma StopCallSound(r: Recorder)
    requires Sound(r)
    ensures Sound(StopCall(r))
    ensures r.stop == NotStopping && !r.finalized ==> StopCall(r.(detached := true)) == StopCall(r)
  {
    if !r.finalized && r.stop == NotStopping {
      var sealed := Seal(r.(detached := true));
      if r.detached {
        assert sealed == r;
      } else {
        SealSound(r);
        assert sealed == Seal(r).(detached := true);
      }
      WaitingSound(if r.detached then r else Seal(r));
    }
  }

  lemma WaitingSound(r: Recorder)
    requires Sound(r) && r.current == [] && r.stop == NotStopping
    ensures Sound(r.(detached := true, stop := Waiting, waiters := r.waiters + [Waiter(r.sequence, false, true)]))
  {
  }

  lemma PushSound(r: Recorder, e: Event)
    requires Sound(r) && !r.detached && Accounted(Push(r, e))
    ensures Sound(Push(r, e))
  {
  }

  lemma CloseIfFullSound(r: Recorder)
    requires Sound(r) && !r.detached
    ensures Sound(CloseIfFull(r))
  {
    StopCallSound(r);
  }

  lemma AdmitSound(r: Recorder, e: Event)
    requires Sound(r) && !r.detached && Booked(e) <= MAX_CHUNK_BYTES
    requires |r.current| < MAX_CHUNK_EVENTS && (r.current != [] ==> r.currentBytes + Booked(e) <= MAX_CHUNK_BYTES)
    ensures Sound(Admit(r, e))
  {
    if SessionFull(r, e) {
      StopCallSound(r);
    } else {
      PushAccounted(r, e);
      PushSound(r, e);
      CloseIfFullSound(Push(r, e));
    }
  }

  lemma AcceptSound(r: Recorder, e: Event)
    requires Sound(r)
    ensures Sound(Accept(r, e))
  {
    if !r.detached && Booked(e) <= MAX_CHUNK_BYTES {
      ReadyAccounted(r, e);
      SealSound(r);
      AdmitSound(Ready(r, e), e);
    }
  }

  lemma WaiterSound(r: Recorder, keepalive: bool)
    requires Sound(r) && !r.detached
    ensures Sound(r.(waiters := r.waiters + [Waiter(r.sequence, keepalive, false)]))
  {
  }

  lemma FlushCallSound(r: Recorder, keepalive: bool)
    requires Sound(r)
    ensures Sound(FlushCall(r, keepalive))
  {
    if !r.detached {
      SealSound(r);
      WaiterSound(Seal(r), keepalive);
    }
  }

  // ----- hashing and draining -----

  lemma {:induction false} QueuedAppend(cs: seq<Chunk>, ds: seq<Chunk>)
    ensures QueuedBytes(cs + ds) == QueuedBytes(cs) + QueuedBytes(ds)
  {
    if cs == [] {
      assert cs + ds == ds;
    } else {
      QueuedAppend(cs[1..], ds);
      assert (cs + ds)[1..] == cs[1..] + ds;
    }
  }

  /** One chunk never fills the queue, so eviction always leaves the newest chunk. */
  lemma {:induction false} EvictLeavesOne(cs: seq<Chunk>)
    requires cs != [] && forall c :: c in cs ==> c.events != [] && ChunkShape(c.events)
    ensures Evict(cs) != []
  {
    if |cs| == 1 {
      ChunkFits(cs[0]);
      assert QueuedBytes(cs) == ChunkBytes(cs[0]) + QueuedBytes([]);
    } else {
      EvictLeavesOne(cs[1..]);
    }
  }

  /** Serialized size: below the chunk limit for several events, at most one byte over it for a single one. */
  lemma ChunkFits(c: Chunk)
    requires c.events != [] && ChunkShape(c.events)
    ensures |c.events| >= 2 ==> ChunkBytes(c) <= MAX_CHUNK_BYTES - 1
    ensures |c.events| == 1 ==> ChunkBytes(c) == Booked(c.events[0]) + 1 <= MAX_CHUNK_BYTES + 1
    ensures ChunkBytes(c) <= MAX_CHUNK_BYTES <==> !(|c.events| == 1 && Booked(c.events[0]) == MAX_CHUNK_BYTES)
  {
    SerializedLength(c.events);
    if |c.events| == 1 {
      assert c.events[..0] == [];
    }
  }

  lemma HashedCounted(r: Recorder)
    requires Counted(r) && r.sealing != []
    ensures Counted(Hashed(r)) && Hashed(r).pending != []
  {
    hide ChunkShape, Evict, QueuedBytes, ChunkBytes;
    var queued := r.pending + [r.sealing[0]];
    EvictLeavesOne(queued);
    var kept := Evict(queued);
    assert kept == queued[|queued| - |kept|..];
    assert |queued[..|queued| - |kept|]| == |queued| - |kept|;
    assert forall c :: c in kept ==> c in queued;
    assert forall c :: c in r.sealing[1..] ==> c in r.sealing;
    assert r.sealing[0] in r.sealing;
  }

  lemma HashedOrder(r: Recorder)
    requires HeadFirst(r) && r.sealing != [] && r.log.evicted == []
    ensures Hashed(r).log.evicted == [] ==> HeadFirst(Hashed(r))
  {
    hide Evict, QueuedBytes;
    var queued := r.pending + [r.sealing[0]];
    var r' := Hashed(r);
    if r'.log.evicted == [] {
      assert r'.pending == queued;
      assert r.sealing == [r.sealing[0]] + r'.sealing;
      assert r.pending != [] ==> queued[0] == r.pending[0];
    }
  }

  lemma HashedSound(r: Recorder)
    requires Sound(r) && r.sealing != []
    ensures Sound(Hashed(r))
  {
    AccountedSame(r, Hashed(r));
    HashedCounted(r);
    if r.log.evicted == [] { HashedOrder(r); }
    hide Accounted, Counted, HeadFirst, Evict, QueuedBytes;
  }

  lemma StartSound(r: Recorder, w: nat)
    requires Sound(r) && CanStart(r, w)
    ensures Sound(Start(r, w))
  {
    assert r.waiters[w] in r.waiters;
  }

  lemma EndDrainSound(r: Recorder)
    requires Sound(r) && r.drains != [] && r.uploading.None? && (r.drains[0].keepalive || r.pending == [])
    ensures Sound(EndDrain(r))
  {
    assert r.drains[0] in r.drains;
  }

  lemma ProceedSound(r: Recorder, overhead: nat)
    requires Sound(r) && r.drains != [] && r.uploading.None?
    ensures Sound(Proceed(r, overhead))
  {
    if r.pending == [] || (r.drains[0].keepalive && ChunkBytes(r.pending[0]) + overhead > MAX_KEEPALIVE_REQUEST_BYTES) {
      EndDrainSound(r);
    } else if r.log.evicted == [] {
      assert r.log.sealed[|r.log.acked|] == r.pending[0];
    }
  }

  function Shifted(r: Recorder): Recorder
    requires r.uploading.Some? && r.pending != []
  {
    r.(uploading := None, pending := r.pending[1..], log := r.log.(acked := r.log.acked + [r.uploading.value]))
  }

  lemma ShiftedSound(r: Recorder)
    requires Sound(r) && r.uploading.Some?
    ensures Sound(Shifted(r))
  {
    AccountedSame(r, Shifted(r));
    hide Accounted, ChunkShape;
    assert forall c :: c in r.pending[1..] ==> c in r.pending;
    if r.log.evicted == [] {
      assert r.pending == [r.uploading.value] + r.pending[1..];
      assert Shifted(r).log.acked + Shifted(r).pending == r.log.acked + r.pending;
    }
  }

  lemma UploadedSound(r: Recorder, overhead: nat)
    requires Sound(r) && r.uploading.Some?
    ensures r.drains != [] && Sound(Uploaded(r, overhead))
  {
    ShiftedSound(r);
    if r.drains[0].keepalive {
      EndDrainSound(Shifted(r));
    } else {
      ProceedSound(Shifted(r), overhead);
    }
  }

  lemma UploadFailedSound(r: Recorder)
    requires Sound(r) && r.uploading.Some?
    ensures r.drains != [] && Sound(UploadFailed(r))
  {
    assert r.drains[0] in r.drains;
  }

  lemma CompleteSound(r: Recorder)
    requires Sound(r) && r.stop == Drained
    ensures Sound(Complete(r))
  {
  }

  // ----- every run -----

  /** What the server stores while nothing was evicted: the chunks 0..k-1 and nothing else. */
  ghost predicate StoredSound(s: System) {
    var r := s.recorder;
    && (forall n :: n in s.stored ==> exists c :: c in r.log.sent && c.sequence == n)
    && (forall c :: c in r.log.acked ==> c.sequence in s.stored)
  }

  lemma StepSound(s: System, step: Step)
    requires Sound(s.recorder) && Enabled(s, step)
    ensures Sound(RecorderAfter(s, step))
  {
    var r := s.recorder;
    match step
    case Accepting(e) => AcceptSound(r, e);
    case Flushing(keepalive) => FlushCallSound(r, keepalive);
    case Stopping => StopCallSound(r);
    case Hashing => HashedSound(r);
    case Starting(w) => StartSound(r, w);
    case Proceeding(overhead) => ProceedSound(r, overhead);
    case Acknowledging(overhead) => UploadedSound(r, overhead);
    case Failing => UploadFailedSound(r);
    case Finishing => CompleteSound(r);
    case Confirming(ok) =>
    case Arriving(_) =>
  }

  lemma AcceptLog(r: Recorder, e: Event)
    ensures Accept(r, e).log.sent == r.log.sent && Accept(r, e).log.acked == r.log.acked
  {
    hide MustSealFirst, SessionFull;
  }

  lemma DrainLog(r: Recorder, overhead: nat)
    requires r.drains != []
    ensures r.log.sent <= Proceed(r, overhead).log.sent && Proceed(r, overhead).log.acked == r.log.acked
    ensures r.uploading.Some? ==>
              && r.log.sent <= Uploaded(r, overhead).log.sent
              && Uploaded(r, overhead).log.acked == r.log.acked + [r.uploading.value]
  {
    hide ChunkBytes;
  }

  /** Only an acknowledged upload changes the acknowledged chunks, and only a request adds to what was sent. */
  lemma LogGrows(s: System, step: Step)
    requires Enabled(s, step)
    ensures var log, log' := s.recorder.log, RecorderAfter(s, step).log;
            && log.sent <= log'.sent
            && log'.acked == log.acked + (if step.Acknowledging? then [s.recorder.uploading.value] else [])
  {
    var r := s.recorder;
    assert r.log.acked + [] == r.log.acked;
    match step
    case Accepting(e) => AcceptLog(r, e); hide Accept;
    case Proceeding(overhead) => DrainLog(r, overhead); hide Proceed;
    case Acknowledging(overhead) => DrainLog(r, overhead); hide Uploaded;
    case _ => hide Evict, QueuedBytes;
  }

  lemma StepStored(s: System, step: Step)
    requires StoredSound(s) && Enabled(s, step)
    ensures StoredSound(Apply(s, step))
  {
    LogGrows(s, step);
    hide RecorderAfter, CanStart;
    var s' := Apply(s, step);
    forall n | n in s'.stored ensures exists c :: c in s'.recorder.log.sent && c.sequence == n {
      if n in s.stored {
        var c :| c in s.recorder.log.sent && c.sequence == n;
        assert c in s'.recorder.log.sent;
      } else {
        assert step.chunk in s'.recorder.log.sent;
      }
    }
  }

  lemma {:induction false} RunSound(steps: seq<Step>)
    ensures Sound(Run(steps).recorder) && StoredSound(Run(steps))
  {
    if steps != [] {
      var s, step := Run(steps[..|steps| - 1]), steps[|steps| - 1];
      RunSound(steps[..|steps| - 1]);
      hide Sound, StoredSound, Enabled, RecorderAfter;
      if Enabled(s, step) {
        StepSound(s, step);
        StepStored(s, step);
      }
    }
  }

  /**
   * Delivery in order, exactly: on every run, over concurrent flushes, failed uploads and lost
   * responses, the acknowledged chunks followed by the queue and the chunks still being sealed
   * are the sealed chunks in order if and only if the byte cap never evicted a chunk.
   */
  lemma PrefixDelivery(steps: seq<Step>)
    ensures InOrder(Run(steps).recorder) <==> Run(steps).recorder.log.evicted == []
  {
    RunSound(steps);
    var r := Run(steps).recorder;
    if InOrder(r) {
      assert |r.log.acked + r.pending + r.sealing| == |r.log.sealed|;
    }
  }

  /** The guard of eviction: a seal job evicts exactly when it takes the queue over its byte cap. */
  lemma EvictsOverCap(steps: seq<Step>)
    requires Run(steps).recorder.sealing != []
    ensures var r := Run(steps).recorder;
            Hashed(r).log.evicted == r.log.evicted
            <==> QueuedBytes(r.pending) + ChunkBytes(r.sealing[0]) <= MAX_QUEUE_BYTES
  {
    var r := Run(steps).recorder;
    QueuedAppend(r.pending, [r.sealing[0]]);
    assert QueuedBytes([r.sealing[0]]) == ChunkBytes(r.sealing[0]) + QueuedBytes([]);
  }

  /** What the server holds without eviction is a contiguous prefix: the acknowledged chunks and at most one more. */
  lemma ServerHoldsPrefix(steps: seq<Step>, n: nat)
    requires Run(steps).recorder.log.evicted == []
    ensures var r := Run(steps).recorder;
            && (n < |r.log.acked| ==> n in Run(steps).stored)
            && (n in Run(steps).stored ==> n <= |r.log.acked|)
  {
    RunSound(steps);
    var r := Run(steps).recorder;
    if n < |r.log.acked| {
      assert r.log.acked[n] == r.log.sealed[n] && r.log.acked[n] in r.log.acked;
    }
  }

  /** Completion is asked for only after every chunk up to `last_sequence` was acknowledged. */
  lemma CompleteAfterAll(steps: seq<Step>, k: (int, seq<Chunk>))
    requires Run(steps).recorder.log.evicted == [] && k in Run(steps).recorder.log.completes
    ensures k.1 == Run(steps).recorder.log.sealed && k.0 == |k.1| - 1
  {
    RunSound(steps);
  }

  /**
   * Accounting over every run: the sealed chunks followed by the current one are the accepted
   * events in order, chunk numbers count from 0 and stay below 120, every chunk has 1 to 500
   * events, and the session stays within its event and byte limits.
   */
  lemma Accounting(steps: seq<Step>)
    ensures var r := Run(steps).recorder;
            && r.log.accepted == AllEvents(r.log.sealed) + r.current
            && |r.log.sealed| <= MAX_SESSION_CHUNKS
            && (forall i :: 0 <= i < |r.log.sealed| ==>
                  r.log.sealed[i].sequence == i && 1 <= |r.log.sealed[i].events| <= MAX_CHUNK_EVENTS)
            && |r.log.accepted| <= MAX_SESSION_EVENTS && BookedAll(r.log.accepted) <= MAX_SESSION_BYTES
  {
    RunSound(steps);
  }

  /** Serialized sizes over every run; a chunk is over the limit exactly when it is one event booked at the limit. */
  lemma SealedSizes(steps: seq<Step>, i: nat)
    requires i < |Run(steps).recorder.log.sealed|
    ensures var c := Run(steps).recorder.log.sealed[i];
            && (|c.events| >= 2 ==> ChunkBytes(c) <= MAX_CHUNK_BYTES - 1)
            && ChunkBytes(c) <= MAX_CHUNK_BYTES + 1
            && (ChunkBytes(c) <= MAX_CHUNK_BYTES <==> !(|c.events| == 1 && Booked(c.events[0]) == MAX_CHUNK_BYTES))
  {
    RunSound(steps);
    ChunkFits(Run(steps).recorder.log.sealed[i]);
  }
}
