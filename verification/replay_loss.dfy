/** Which chunks of a replay are lost: neither delivered nor evicted, but shifted away in place of another one. */
module ReplayLoss {
  import opened Wrappers
  import opened ReplayRecorder
  import opened ReplayDelivery

  /** `c` was sealed, and is not acknowledged, evicted, sent, queued or being sealed. */
  ghost predicate Lost(r: Recorder, c: Chunk) {
    && c in r.log.sealed
    && c !in r.log.acked && c !in r.log.evicted && c !in r.log.sent && c !in r.pending && c !in r.sealing
  }

  /** The acknowledgement of one chunk shifts away another one, which stands first in the queue. */
  predicate ShiftsOther(s: System, step: Step, c: Chunk) {
    && step.Acknowledging? && Enabled(s, step)
    && s.recorder.pending != [] && s.recorder.pending[0] == c && s.recorder.uploading.value != c
  }

  // ----- where every sealed chunk is -----

  /** How many sealed chunks have left the queue. */
  function Gone(r: Recorder): int { |r.log.sealed| - |r.pending| - |r.sealing| }

  /** What waits is the end of what was sealed. */
  ghost predicate Suffix(r: Recorder) {
    0 <= Gone(r) && r.pending + r.sealing == r.log.sealed[Gone(r)..]
  }

  predicate Numbered(r: Recorder) {
    forall i :: 0 <= i < |r.log.sealed| ==> r.log.sealed[i].sequence == i
  }

  /** `lost` are the chunks shifted away for another one; what has left is acknowledged, evicted or lost. */
  ghost predicate Tracked(r: Recorder, lost: set<Chunk>) {
    && Suffix(r) && Numbered(r)
    && (forall i :: 0 <= i < Gone(r) ==> r.log.sealed[i] in r.log.acked || r.log.sealed[i] in r.log.evicted || r.log.sealed[i] in lost)
    && (forall c :: c in lost ==> c in r.log.sealed && c.sequence < Gone(r) && c !in r.log.acked && c !in r.log.evicted && c !in r.log.sent)
    && (forall c :: c in r.log.acked || c in r.log.evicted ==> c.sequence < Gone(r))
  }

  /** What was sent is at most the head of the queue; while a chunk is uploading, nothing later was sent. */
  ghost predicate SentSound(r: Recorder) {
    && (forall c :: c in r.log.sent ==> c in r.log.sealed && c.sequence <= Gone(r))
    && (r.uploading.Some? ==> r.pending != [] && r.uploading.value in r.log.sent)
    && (r.uploading.Some? ==> forall c :: c in r.log.sent ==> c.sequence <= r.uploading.value.sequence)
  }

  ghost predicate Followed(r: Recorder, lost: set<Chunk>) {
    Tracked(r, lost) && SentSound(r)
  }

  /** Nothing else matters to it. */
  lemma FollowedSame(r: Recorder, t: Recorder, lost: set<Chunk>)
    requires Followed(r, lost) && t.pending == r.pending && t.sealing == r.sealing
    requires t.uploading == r.uploading || t.uploading == None
    requires t.log.sealed == r.log.sealed && t.log.acked == r.log.acked && t.log.evicted == r.log.evicted && t.log.sent == r.log.sent
    ensures Followed(t, lost)
  {
  }

  lemma SealFollowed(r: Recorder, lost: set<Chunk>)
    requires Followed(r, lost) && r.sequence == |r.log.sealed|
    ensures Followed(Seal(r), lost)
  {
    if r.current != [] {
      var t := Seal(r);
      var chunk := Chunk(r.sequence, r.current);
      assert t.pending + t.sealing == (r.pending + r.sealing) + [chunk];
      assert t.log.sealed[Gone(t)..] == r.log.sealed[Gone(r)..] + [chunk];
    }
  }

  /** The first chunk that waits is the one that left last plus one. */
  lemma WaitingAt(r: Recorder, i: nat)
    requires Suffix(r) && Numbered(r) && i < |r.pending| + |r.sealing|
    ensures (r.pending + r.sealing)[i] == r.log.sealed[Gone(r) + i] && (r.pending + r.sealing)[i].sequence == Gone(r) + i
  {
    assert r.log.sealed[Gone(r)..][i] == r.log.sealed[Gone(r) + i];
  }

  /** Hashing evicts the next sealed chunks in order. */
  lemma HashedMoves(r: Recorder) returns (k: nat)
    requires Suffix(r) && r.sealing != []
    ensures var t := Hashed(r);
            && Suffix(t) && Gone(t) == Gone(r) + k <= |r.log.sealed|
            && t.log == r.log.(evicted := r.log.evicted + r.log.sealed[Gone(r)..Gone(r) + k])
            && t.uploading == r.uploading
  {
    var t := Hashed(r);
    var queued := r.pending + [r.sealing[0]];
    hide Evict, QueuedBytes;
    k := |queued| - |t.pending|;
    assert t.pending == queued[k..] && t.log.evicted == r.log.evicted + queued[..k];
    assert r.sealing == [r.sealing[0]] + t.sealing;
    assert r.pending + r.sealing == queued + t.sealing;
    assert t.pending + t.sealing == (queued + t.sealing)[k..];
    assert r.log.sealed[Gone(r)..][k..] == r.log.sealed[Gone(r) + k..];
    assert queued[..k] == (queued + t.sealing)[..k] == r.log.sealed[Gone(r)..][..k] == r.log.sealed[Gone(r)..Gone(r) + k];
  }

  /** Evicted chunks are accounted for. */
  lemma EvictedTracked(r: Recorder, t: Recorder, k: nat, lost: set<Chunk>)
    requires Tracked(r, lost) && Suffix(t) && Gone(t) == Gone(r) + k <= |r.log.sealed|
    requires t.log == r.log.(evicted := r.log.evicted + r.log.sealed[Gone(r)..Gone(r) + k])
    ensures Tracked(t, lost)
  {
    assert 0 <= Gone(r);
    hide Suffix, Gone;
    var out := r.log.sealed[Gone(r)..Gone(r) + k];
    forall i | 0 <= i < Gone(t) ensures t.log.sealed[i] in t.log.acked || t.log.sealed[i] in t.log.evicted || t.log.sealed[i] in lost {
      if i >= Gone(r) { assert out[i - Gone(r)] == t.log.sealed[i]; }
    }
    forall c | c in out ensures c in r.log.sealed && Gone(r) <= c.sequence < Gone(t) {
      var i :| 0 <= i < |out| && out[i] == c;
      assert r.log.sealed[Gone(r) + i] == c;
    }
  }

  lemma HashedFollowed(r: Recorder, lost: set<Chunk>)
    requires Followed(r, lost) && r.sealing != [] && Hashed(r).pending != []
    ensures Followed(Hashed(r), lost)
  {
    var k := HashedMoves(r);
    EvictedTracked(r, Hashed(r), k, lost);
    hide Hashed, Suffix, Numbered, Tracked;
  }

  lemma ProceedFollowed(r: Recorder, overhead: nat, lost: set<Chunk>)
    requires Followed(r, lost) && r.drains != [] && r.uploading.None?
    ensures Followed(Proceed(r, overhead), lost)
  {
    var t := Proceed(r, overhead);
    if t.uploading.Some? {
      assert t == r.(uploading := Some(r.pending[0]), log := r.log.(sent := r.log.sent + {r.pending[0]}));
      HeadSent(r, t, lost);
    } else {
      hide Followed, ChunkBytes;
      FollowedSame(r, t, lost);
    }
  }

  /** The head of the queue is put on the wire; it was never lost. */
  lemma HeadSent(r: Recorder, t: Recorder, lost: set<Chunk>)
    requires Followed(r, lost) && r.pending != []
    requires t == r.(uploading := Some(r.pending[0]), log := r.log.(sent := r.log.sent + {r.pending[0]}))
    ensures Followed(t, lost)
  {
    WaitingAt(r, 0);
    assert (r.pending + r.sealing)[0] == r.pending[0];
    assert r.pending[0] in r.log.sealed && r.pending[0].sequence == Gone(r);
    assert Suffix(t) && Numbered(t);
    hide Suffix, Numbered;
  }

  lemma SameNumber(r: Recorder, a: Chunk, b: Chunk)
    requires Numbered(r) && a in r.log.sealed && b in r.log.sealed && a.sequence == b.sequence
    ensures a == b
  {
  }

  lemma ShiftedFollowed(r: Recorder, lost: set<Chunk>)
    requires Followed(r, lost) && r.uploading.Some?
    ensures Followed(Shifted(r), if r.pending[0] == r.uploading.value then lost else lost + {r.pending[0]})
  {
    var t := Shifted(r);
    WaitingAt(r, 0);
    assert (r.pending + r.sealing)[0] == r.pending[0];
    assert t.pending + t.sealing == (r.pending + r.sealing)[1..] == r.log.sealed[Gone(r)..][1..] == r.log.sealed[Gone(t)..];
    assert r.uploading.value in t.log.acked;
    var head, other := r.pending[0], r.uploading.value;
    if head != other {
      hide Suffix;
      assert other.sequence != head.sequence by { if other.sequence == head.sequence { SameNumber(r, other, head); } }
      assert head !in r.log.sent;
    }
  }

  // ----- every run -----

  predicate Aligned(r: Recorder) { r.sequence == |r.log.sealed| }

  lemma StopFollowed(r: Recorder, lost: set<Chunk>)
    requires Followed(r, lost) && Aligned(r)
    ensures Followed(StopCall(r), lost)
  {
    var d := r.(detached := true);
    FollowedSame(r, d, lost);
    SealFollowed(d, lost);
    hide Followed;
    if !r.finalized && r.stop == NotStopping {
      FollowedSame(Seal(d), StopCall(r), lost);
    }
  }

  lemma SealAligned(r: Recorder)
    requires Aligned(r)
    ensures Aligned(Seal(r))
  {
  }

  lemma AdmitFollowed(r: Recorder, e: Event, lost: set<Chunk>)
    requires Followed(r, lost) && Aligned(r)
    ensures Followed(Admit(r, e), lost)
  {
    FollowedSame(r, r.(detached := true), lost);
    StopFollowed(r.(detached := true), lost);
    var p := Push(r, e);
    FollowedSame(r, p, lost);
    FollowedSame(p, p.(detached := true), lost);
    StopFollowed(p.(detached := true), lost);
    hide Followed, StopCall, SessionFull;
  }

  lemma AcceptFollowed(r: Recorder, e: Event, lost: set<Chunk>)
    requires Followed(r, lost) && Aligned(r)
    ensures Followed(Accept(r, e), lost)
  {
    SealFollowed(r, lost);
    SealAligned(r);
    AdmitFollowed(Ready(r, e), e, lost);
    hide Followed, Admit, Seal, MustSealFirst;
  }

  lemma FlushFollowed(r: Recorder, keepalive: bool, lost: set<Chunk>)
    requires Followed(r, lost) && Aligned(r)
    ensures Followed(FlushCall(r, keepalive), lost)
  {
    SealFollowed(r, lost);
    hide Followed;
    if !r.detached { FollowedSame(Seal(r), FlushCall(r, keepalive), lost); }
  }

  lemma UploadedFollowed(r: Recorder, overhead: nat, lost: set<Chunk>)
    requires Followed(r, lost) && r.uploading.Some? && r.drains != []
    ensures Followed(Uploaded(r, overhead), if r.pending[0] == r.uploading.value then lost else lost + {r.pending[0]})
  {
    ShiftedFollowed(r, lost);
    var lost' := if r.pending[0] == r.uploading.value then lost else lost + {r.pending[0]};
    hide Followed;
    if r.drains[0].keepalive {
      FollowedSame(Shifted(r), EndDrain(Shifted(r)), lost');
    } else {
      ProceedFollowed(Shifted(r), overhead, lost');
    }
  }

  /** The chunk that a step shifts away for another one. */
  ghost function LostBy(s: System, step: Step): set<Chunk> {
    if step.Acknowledging? && Enabled(s, step) && s.recorder.pending != [] && s.recorder.pending[0] != s.recorder.uploading.value
    then {s.recorder.pending[0]} else {}
  }

  /** The steps that move no chunk. */
  lemma OtherFollowed(s: System, step: Step, lost: set<Chunk>)
    requires Followed(s.recorder, lost) && Enabled(s, step)
    requires step.Starting? || step.Failing? || step.Finishing? || step.Confirming? || step.Arriving?
    ensures Followed(RecorderAfter(s, step), lost)
  {
    hide Followed;
    FollowedSame(s.recorder, RecorderAfter(s, step), lost);
  }

  lemma StepFollowed(s: System, step: Step, lost: set<Chunk>)
    requires Sound(s.recorder) && Followed(s.recorder, lost) && Enabled(s, step)
    ensures Followed(RecorderAfter(s, step), lost + LostBy(s, step))
  {
    var r := s.recorder;
    SoundAligned(r);
    assert lost + {} == lost;
    if step.Acknowledging? {
      hide Followed, Sound, Proceed, EndDrain;
      UploadedFollowed(r, step.overhead, lost);
    } else if step.Hashing? {
      HashedCounted(r);
      HashedFollowed(r, lost);
    } else {
      assert LostBy(s, step) == {};
      hide Followed, Sound, Accept, FlushCall, StopCall, Proceed, LostBy, Counted;
      match step
      case Accepting(e) => AcceptFollowed(r, e, lost);
      case Flushing(keepalive) => FlushFollowed(r, keepalive, lost);
      case Stopping => StopFollowed(r, lost);
      case Proceeding(overhead) => ProceedFollowed(r, overhead, lost);
      case _ => OtherFollowed(s, step, lost);
    }
  }

  lemma SoundAligned(r: Recorder)
    requires Sound(r)
    ensures Aligned(r) && Counted(r)
    ensures r.uploading.Some? ==> r.pending != [] && r.drains != []
  {
  }

  ghost function LostOn(steps: seq<Step>): set<Chunk> {
    if steps == [] then {} else LostOn(steps[..|steps| - 1]) + LostBy(Run(steps[..|steps| - 1]), steps[|steps| - 1])
  }

  lemma {:induction false} RunFollowed(steps: seq<Step>)
    ensures Followed(Run(steps).recorder, LostOn(steps))
  {
    if steps != [] {
      var s, step := Run(steps[..|steps| - 1]), steps[|steps| - 1];
      RunFollowed(steps[..|steps| - 1]);
      RunSound(steps[..|steps| - 1]);
      hide Followed, Sound, Enabled, RecorderAfter;
      if Enabled(s, step) {
        StepFollowed(s, step, LostOn(steps[..|steps| - 1]));
      }
    }
  }

  ghost predicate ShiftedIn(steps: seq<Step>, c: Chunk) {
    exists i :: 0 <= i < |steps| && ShiftsOther(Run(steps[..i]), steps[i], c)
  }

  lemma ShiftedLast(steps: seq<Step>, c: Chunk)
    requires steps != []
    ensures ShiftedIn(steps, c)
       <==> ShiftedIn(steps[..|steps| - 1], c) || ShiftsOther(Run(steps[..|steps| - 1]), steps[|steps| - 1], c)
  {
    var init := steps[..|steps| - 1];
    hide ShiftsOther, Run;
    assert forall i :: 0 <= i < |init| ==> init[..i] == steps[..i] && init[i] == steps[i];
    if ShiftedIn(init, c) {
      var i :| 0 <= i < |init| && ShiftsOther(Run(init[..i]), init[i], c);
      assert ShiftsOther(Run(steps[..i]), steps[i], c);
    }
  }

  lemma {:induction false} LostOnIff(steps: seq<Step>, c: Chunk)
    ensures c in LostOn(steps) <==> ShiftedIn(steps, c)
  {
    if steps != [] {
      LostOnIff(steps[..|steps| - 1], c);
      ShiftedLast(steps, c);
      hide Run, ShiftedIn, Enabled;
    }
  }

  /**
   * On every run a chunk is lost exactly if it stood first in the queue when the acknowledgement of
   * another chunk arrived.
   */
  lemma LostIff(steps: seq<Step>, c: Chunk)
    ensures Lost(Run(steps).recorder, c) <==> ShiftedIn(steps, c)
  {
    RunFollowed(steps);
    LostOnIff(steps, c);
    var r := Run(steps).recorder;
    hide Run, LostOn, ShiftedIn;
    if c in r.log.sealed {
      var i :| 0 <= i < |r.log.sealed| && r.log.sealed[i] == c;
      if i >= Gone(r) {
        WaitingAt(r, i - Gone(r));
        assert c in r.pending + r.sealing;
      }
    }
    if c in r.pending + r.sealing {
      var i :| 0 <= i < |r.pending + r.sealing| && (r.pending + r.sealing)[i] == c;
      WaitingAt(r, i);
    }
  }

  /** Whatever is evicted or lost, what waits is the end of what was sealed, in order. */
  lemma PendingIsSuffix(steps: seq<Step>)
    ensures var r := Run(steps).recorder;
            && |r.pending| + |r.sealing| <= |r.log.sealed|
            && r.pending + r.sealing == r.log.sealed[|r.log.sealed| - |r.pending| - |r.sealing|..]
  {
    RunFollowed(steps);
  }
}
