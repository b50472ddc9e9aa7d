/** The recorder object itself: its fields are updated in place, one synchronous piece of code at a time. */
module ReplaySession {
  import opened Wrappers
  import opened ReplayRecorder

  const MAX_ATTEMPTS := 4

  /** How one attempt of a request ends; `retryableBody` is the error payload's own flag. */
  datatype Answer = Status(code: int, retryableBody: bool) | NetworkError

  predicate Succeeds(a: Answer, terminal: set<int>) {
    a.Status? && (200 <= a.code < 300 || a.code in terminal)
  }

  predicate Retryable(a: Answer) {
    a.NetworkError? || a.code == 408 || a.code == 429 || a.code >= 500 || a.retryableBody
  }

  function Pow2(n: nat): nat {
    if n == 0 then 1 else 2 * Pow2(n - 1)
  }

  /**
   * `requestWithRetry`: answers are what the environment gives, attempt by attempt. Every attempt
   * but the last one met a retryable failure; the last one succeeded, met a failure that is not
   * retryable, or used up the attempts. The pauses double from 250 ms.
   */
  method RequestWithRetry(keepalive: bool, terminal: set<int>, answers: seq<Answer>)
    returns (ok: bool, sent: nat, waited: nat)
    requires |answers| >= 4
    ensures 1 <= sent <= if keepalive then 1 else 4
    ensures forall i :: 0 <= i < sent - 1 ==> !Succeeds(answers[i], terminal) && Retryable(answers[i])
    ensures ok <==> Succeeds(answers[sent - 1], terminal)
    ensures !ok && Retryable(answers[sent - 1]) ==> sent == if keepalive then 1 else 4
    ensures waited == 250 * (Pow2(sent - 1) - 1)
  {
    var attempts := if keepalive then 1 else MAX_ATTEMPTS;
    var attempt := 0;
    waited := 0;
    while attempt < attempts
      invariant 0 <= attempt <= attempts
      invariant attempt == attempts ==> attempts == 0
      invariant forall i :: 0 <= i < attempt ==> !Succeeds(answers[i], terminal) && Retryable(answers[i])
      invariant waited == 250 * (Pow2(attempt) - 1)
    {
      var a := answers[attempt];
      if a.Status? && 200 <= a.code < 300 { return true, attempt + 1, waited; }
      if a.Status? && a.code in terminal { return true, attempt + 1, waited; }
      var again := a.NetworkError? || a.code == 408 || a.code == 429 || a.code >= 500 || a.retryableBody;
      if !again || attempt == attempts - 1 { return false, attempt + 1, waited; }
      waited := waited + 250 * Pow2(attempt);
      attempt := attempt + 1;
    }
  }

  class RecorderSession {
    var current: seq<Event>
    var currentBytes: nat
    var pending: seq<Chunk>
    var sequence: nat
    var acceptedBytes: nat
    var acceptedEvents: nat
    var detached: bool
    var finalized: bool
    var stop: Stop
    var sealing: seq<Chunk>     // seal jobs of the promise chain that have not ended
    var waiters: seq<Waiter>    // flushes and stops suspended on that chain
    var drains: seq<Drain>      // the mutex chain of drains
    var uploading: Option<Chunk>
    ghost var log: Log

    /** The value the step functions work on. */
    ghost function Model(): Recorder
      reads this
    {
      Recorder(current, currentBytes, pending, sequence, acceptedBytes, acceptedEvents, detached, finalized, stop,
               sealing, waiters, drains, uploading, log)
    }

    constructor ()
      ensures Model() == FRESH_RECORDER
    {
      current, currentBytes, pending, sequence := [], 2, [], 0;
      acceptedBytes, acceptedEvents, detached, finalized, stop := 0, 0, false, false, NotStopping;
      sealing, waiters, drains, uploading := [], [], [], None;
      log := Log([], [], [], [], {}, []);
    }

    /** `seal`: the current events become the next chunk, whose job joins the chain. */
    method SealCurrent()
      modifies this
      ensures Model() == Seal(old(Model()))
    {
      if current == [] { return; }
      var chunk := Chunk(sequence, current);
      sequence := sequence + 1;
      current, currentBytes := [], 2;
      sealing := sealing + [chunk];
      log := log.(sealed := log.sealed + [chunk]);
    }

    /** `stop` up to its first `await`. */
    method StopNow()
      modifies this
      ensures Model() == StopCall(old(Model()))
    {
      if finalized || stop != NotStopping { return; }
      detached := true;
      SealCurrent();
      stop := Waiting;
      waiters := waiters + [Waiter(sequence, false, true)];
    }

    method PushEvent(e: Event)
      modifies this
      ensures Model() == Push(old(Model()), e)
    {
      current, currentBytes := current + [e], currentBytes + Booked(e);
      acceptedBytes, acceptedEvents := acceptedBytes + Booked(e), acceptedEvents + 1;
      log := log.(accepted := log.accepted + [e]);
    }

    /** `detach` and `stop`, when a session limit is reached. */
    method Close()
      modifies this
      ensures Model() == StopCall(old(Model()).(detached := true))
    {
      detached := true;
      StopNow();
    }

    /** `accept`, for an event that is already sanitized. */
    method AcceptEvent(e: Event)
      modifies this
      ensures Model() == Accept(old(Model()), e)
    {
      hide Seal, Push, StopCall;
      if detached { return; }
      var bytes := |e| + 1;
      if bytes > MAX_CHUNK_BYTES { return; }
      if |current| >= MAX_CHUNK_EVENTS || currentBytes + bytes > MAX_CHUNK_BYTES { SealCurrent(); }
      if sequence >= MAX_SESSION_CHUNKS || acceptedEvents >= MAX_SESSION_EVENTS || acceptedBytes + bytes > MAX_SESSION_BYTES {
        Close();
        return;
      }
      PushEvent(e);
      if acceptedEvents >= MAX_SESSION_EVENTS || acceptedBytes >= MAX_SESSION_BYTES {
        Close();
      }
    }

    /** `flushInternal` up to its first `await`. */
    method Flush(keepalive: bool)
      modifies this
      ensures Model() == FlushCall(old(Model()), keepalive)
    {
      if detached { return; }
      SealCurrent();
      waiters := waiters + [Waiter(sequence, keepalive, false)];
    }

    /** Shift the oldest chunks while the queue is above its byte cap. */
    method EvictOverCap()
      modifies `pending
      ensures pending == Evict(old(pending))
    {
      hide ChunkBytes;
      while QueuedBytes(pending) > MAX_QUEUE_BYTES
        invariant Evict(pending) == Evict(old(pending))
        decreases |pending|
      {
        pending := pending[1..];
      }
    }

    /** The end of the first seal job: push the chunk, then evict. */
    method FinishSealJob()
      requires sealing != []
      modifies this
      ensures Model() == Hashed(old(Model()))
    {
      hide QueuedBytes, Evict;
      pending := pending + [sealing[0]];
      sealing := sealing[1..];
      ghost var queued := pending;
      EvictOverCap();
      log := log.(evicted := log.evicted + queued[..|queued| - |pending|]);
    }

    /** A flush or a stop whose seal jobs ended queues its drain behind the mutex. */
    method SerializeDrain(w: nat)
      requires CanStart(Model(), w)
      modifies this
      ensures Model() == Start(old(Model()), w)
    {
      var x := waiters[w];
      waiters := waiters[..w] + waiters[w + 1..];
      drains := drains + [Drain(x.keepalive, x.stop)];
      if x.stop { stop := Draining; }
    }

    /** The running drain returns. */
    method LeaveDrain()
      requires drains != []
      modifies this
      ensures Model() == EndDrain(old(Model()))
    {
      if drains[0].stop { stop := Drained; }
      uploading := None;
      drains := drains[1..];
    }

    /** The head of the loop of `drain`, up to the request of the first queued chunk. */
    method DrainNext(overhead: nat)
      requires drains != []
      modifies this
      ensures Model() == Proceed(old(Model()), overhead)
    {
      if |pending| > 0 {
        var chunk := pending[0];
        if drains[0].keepalive && |Serialized(chunk.events)| + overhead > MAX_KEEPALIVE_REQUEST_BYTES {
          LeaveDrain();
          return;
        }
        uploading := Some(chunk);
        log := log.(sent := log.sent + {chunk});
      } else {
        LeaveDrain();
      }
    }

    /** The request ended: shift on success and go on, or let the error end the drain. */
    method DrainResume(delivered: bool, overhead: nat)
      requires drains != [] && uploading.Some?
      modifies this
      ensures Model() == if delivered then Uploaded(old(Model()), overhead) else UploadFailed(old(Model()))
    {
      if delivered {
        if |pending| > 0 { pending := pending[1..]; }
        log := log.(acked := log.acked + [uploading.value]);
        uploading := None;
        if drains[0].keepalive { LeaveDrain(); } else { DrainNext(overhead); }
      } else {
        if drains[0].stop { stop := NotStopping; }
        uploading := None;
        drains := drains[1..];
      }
    }

    /** The end of `stopInternal`, up to the completion request when there is one. */
    method FinishStop()
      requires stop == Drained
      modifies this
      ensures Model() == Complete(old(Model()))
    {
      if sequence > 0 {
        log := log.(completes := log.completes + [(sequence - 1, log.acked)]);
        stop := Completing;
      } else {
        finalized := true;
        stop := NotStopping;
      }
    }

    /** The completion request ended. */
    method CompleteResume(ok: bool)
      requires stop == Completing
      modifies this
      ensures Model() == Completed(old(Model()), ok)
    {
      finalized := ok;
      stop := NotStopping;
    }
  }
}
