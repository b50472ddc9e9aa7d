/**
 * Why delivery in order needs the byte cap to hold: a run in which eviction removes the
 * chunk that is being uploaded, so that its acknowledgement shifts away the next one.
 */
module ReplayEviction {
  import opened Wrappers
  import opened ReplayRecorder
  import opened ReplayDelivery
  import opened ReplayLoss

  /** The largest event the recorder accepts; ten of them overflow the queue. */
  function Big(): (e: Event)
    ensures |e| == MAX_CHUNK_BYTES - 1
  {
    seq(MAX_CHUNK_BYTES - 1, _ => 'x')
  }

  function Bigs(k: nat): (es: seq<Event>)
    ensures |es| == k
  {
    if k == 0 then [] else Bigs(k - 1) + [Big()]
  }

  function Full(n: nat): Chunk { Chunk(n, [Big()]) }

  /** The chunks numbered `from` to `k` - 1. */
  function Fulls(from: nat, k: nat): (cs: seq<Chunk>)
    requires from <= k
    ensures |cs| == k - from && forall i :: 0 <= i < |cs| ==> cs[i] == Full(from + i)
  {
    if k == from then [] else Fulls(from, k - 1) + [Full(k - 1)]
  }

  lemma FullBytes(n: nat)
    ensures ChunkBytes(Full(n)) == MAX_CHUNK_BYTES + 1
  {
  }

  lemma {:induction false} FullsBytes(from: nat, k: nat)
    requires from <= k
    ensures QueuedBytes(Fulls(from, k)) == (k - from) * (MAX_CHUNK_BYTES + 1)
    decreases k
  {
    if from < k {
      FullsBytes(from, k - 1);
      QueuedAppend(Fulls(from, k - 1), [Full(k - 1)]);
      FullBytes(k - 1);
      assert QueuedBytes([Full(k - 1)]) == ChunkBytes(Full(k - 1)) + QueuedBytes([]);
    }
  }

  /**
   * Chunk 0 is being uploaded, the queue holds `pending`, `k` chunks were sealed, `evicted` of
   * them evicted, and the current chunk holds one event.
   */
  function Held(k: nat, pending: seq<Chunk>, sealing: seq<Chunk>, evicted: seq<Chunk>): Recorder {
    Recorder([Big()], 2 + MAX_CHUNK_BYTES, pending, k, (k + 1) * MAX_CHUNK_BYTES, k + 1, false, false, NotStopping,
             sealing, [], [Drain(false, false)], Some(Full(0)),
             Log(Bigs(k + 1), Fulls(0, k), [], evicted, {Full(0)}, []))
  }

  lemma RunOne(steps: seq<Step>, a: Step)
    ensures Run(steps + [a]) == Apply(Run(steps), a)
  {
    assert (steps + [a])[..|steps|] == steps;
  }

  lemma RunTwo(steps: seq<Step>, a: Step, b: Step)
    ensures Run(steps + [a] + [b]) == Apply(Apply(Run(steps), a), b)
  {
    RunOne(steps, a);
    RunOne(steps + [a], b);
  }

  /** One more event does not fit the current chunk: it is sealed under the next number. */
  lemma AcceptHeld(k: nat, pending: seq<Chunk>)
    requires k < 30
    ensures Accept(Held(k, pending, [], []), Big()) == Held(k + 1, pending, [Full(k)], [])
  {
    var r := Held(k, pending, [], []);
    assert Ready(r, Big()) == Seal(r);
    assert Seal(r).log.sealed == Fulls(0, k + 1);
    assert !SessionFull(Seal(r), Big());
    assert Push(Seal(r), Big()).current == [Big()];
    assert Push(Seal(r), Big()).log.accepted == Bigs(k + 2);
  }

  lemma HashedIs(r: Recorder, c: Chunk, kept: seq<Chunk>, evicted: seq<Chunk>)
    requires r.sealing == [c] && r.log.evicted == []
    requires Evict(r.pending + [c]) == kept && evicted == (r.pending + [c])[..|r.pending| + 1 - |kept|]
    ensures Hashed(r) == r.(sealing := [], pending := kept, log := r.log.(evicted := evicted))
  {
    hide QueuedBytes, Evict, ChunkBytes;
    var queued := r.pending + [r.sealing[0]];
    assert r.sealing[1..] == [];
    assert [] + evicted == evicted;
    assert queued[..|queued| - |kept|] == evicted;
  }

  lemma HashHeld(k: nat, pending: seq<Chunk>, c: Chunk, kept: seq<Chunk>, evicted: seq<Chunk>)
    requires Evict(pending + [c]) == kept && evicted == (pending + [c])[..|pending| + 1 - |kept|]
    ensures Hashed(Held(k, pending, [c], [])) == Held(k, kept, [], evicted)
  {
    hide Big, Bigs, Fulls, Full, QueuedBytes, Evict, Held, Hashed;
    HeldFields(k, pending, [c], []);
    HeldChanged(k, pending, [c], kept, evicted);
    HashedIs(Held(k, pending, [c], []), c, kept, evicted);
  }

  lemma HeldFields(k: nat, pending: seq<Chunk>, sealing: seq<Chunk>, evicted: seq<Chunk>)
    ensures var r := Held(k, pending, sealing, evicted); r.pending == pending && r.sealing == sealing && r.log.evicted == evicted
  {
    hide Big, Bigs, Fulls, Full;
  }

  lemma HeldChanged(k: nat, pending: seq<Chunk>, sealing: seq<Chunk>, kept: seq<Chunk>, evicted: seq<Chunk>)
    ensures var r := Held(k, pending, sealing, []);
            r.(sealing := [], pending := kept, log := r.log.(evicted := evicted)) == Held(k, kept, [], evicted)
  {
    hide Big, Bigs, Fulls, Full;
  }

  lemma DropFirst(n: nat)
    requires 1 <= n
    ensures Fulls(0, n)[1..] == Fulls(1, n)
  {
    hide Fulls, Full;
  }

  lemma EvictFits(cs: seq<Chunk>)
    requires QueuedBytes(cs) <= MAX_QUEUE_BYTES
    ensures Evict(cs) == cs
  {
    hide QueuedBytes;
  }

  lemma EvictFirst(cs: seq<Chunk>)
    requires QueuedBytes(cs) > MAX_QUEUE_BYTES && cs != [] && QueuedBytes(cs[1..]) <= MAX_QUEUE_BYTES
    ensures Evict(cs) == cs[1..]
  {
    EvictFits(cs[1..]);
    hide QueuedBytes;
  }

  /** Nine of these chunks fit the queue and ten do not. */
  lemma EvictAtCap(n: nat)
    requires 1 <= n <= 10
    ensures Evict(Fulls(0, n)) == if n == 10 then Fulls(1, n) else Fulls(0, n)
  {
    hide Big, Bigs, Fulls, Full, QueuedBytes, Evict, ChunkBytes;
    DropFirst(n);
    FullsBytes(0, n);
    FullsBytes(1, n);
    if n == 10 {
      EvictFirst(Fulls(0, n));
    } else {
      EvictFits(Fulls(0, n));
    }
  }

  /** `k` more events arrive during the upload. */
  function Fill(k: nat): seq<Step> {
    if k == 0 then [Accepting(Big()), Flushing(false), Hashing, Starting(0), Proceeding(0), Accepting(Big())]
    else Fill(k - 1) + [Accepting(Big())] + [Hashing]
  }

  function One(pending: seq<Chunk>, sealing: seq<Chunk>, waiters: seq<Waiter>, drains: seq<Drain>): Recorder {
    Recorder([], 2, pending, 1, MAX_CHUNK_BYTES, 1, false, false, NotStopping, sealing, waiters, drains, None,
             Log([Big()], [Full(0)], [], [], {}, []))
  }

  lemma FirstFlush()
    ensures FlushCall(Accept(FRESH_RECORDER, Big()), false) == One([], [Full(0)], [Waiter(1, false, false)], [])
  {
    assert Ready(FRESH_RECORDER, Big()) == FRESH_RECORDER;
    assert Push(FRESH_RECORDER, Big()).current == [Big()];
  }

  lemma FirstHash(w: seq<Waiter>)
    ensures Hashed(One([], [Full(0)], w, [])) == One([Full(0)], [], w, [])
  {
    FullBytes(0);
    hide Big, Full, ChunkBytes;
    assert QueuedBytes([Full(0)]) == ChunkBytes(Full(0)) + QueuedBytes([]);
    EvictFits([Full(0)]);
    assert [] + [Full(0)] == [Full(0)];
  }

  lemma FirstStart()
    ensures var r := One([Full(0)], [], [Waiter(1, false, false)], []);
            CanStart(r, 0) && Start(r, 0) == One([Full(0)], [], [], [Drain(false, false)])
  {
    hide Big, Full;
  }

  lemma FirstProceed()
    ensures Accept(Proceed(One([Full(0)], [], [], [Drain(false, false)]), 0), Big()) == Held(1, Fulls(0, 1), [], [])
  {
    var r := Proceed(One([Full(0)], [], [], [Drain(false, false)]), 0);
    assert r == One([Full(0)], [], [], [Drain(false, false)]).(uploading := Some(Full(0)), log := r.log);
    assert Ready(r, Big()) == r;
    assert Bigs(1) == [Big()] && Bigs(2) == Bigs(1) + [Big()];
    assert Fulls(0, 1) == [Full(0)];
    assert Push(r, Big()) == Held(1, Fulls(0, 1), [], []);
  }

  lemma FirstUpload()
    ensures Run(Fill(0)) == System(Held(1, Fulls(0, 1), [], []), {})
  {
    hide Big, Full, Fulls, Bigs, Held, One, FlushCall, Hashed, Start, CanStart, Proceed, Accept, Evict, QueuedBytes, Joined;
    assert Run([]) == FRESH_SYSTEM;
    hide Run;
    var s := [] + [Accepting(Big())] + [Flushing(false)];
    RunTwo([], Accepting(Big()), Flushing(false));
    FirstFlush();
    var w := [Waiter(1, false, false)];
    var s' := s + [Hashing] + [Starting(0)];
    RunTwo(s, Hashing, Starting(0));
    FirstHash(w);
    FirstStart();
    assert Run(s) == System(One([], [Full(0)], w, []), {});
    assert One([], [Full(0)], w, []).sealing != [] by { OneFields([], [Full(0)], w, []); }
    RunTwo(s', Proceeding(0), Accepting(Big()));
    OneFields([Full(0)], [], [], [Drain(false, false)]);
    FirstProceed();
    assert Fill(0) == s' + [Proceeding(0)] + [Accepting(Big())];
  }

  lemma OneFields(pending: seq<Chunk>, sealing: seq<Chunk>, waiters: seq<Waiter>, drains: seq<Drain>)
    ensures var r := One(pending, sealing, waiters, drains);
            r.sealing == sealing && r.drains == drains && r.uploading == None
  {
  }

  lemma AcceptThenHash(r: Recorder, e: Event, stored: set<nat>)
    requires Accept(r, e).sealing != []
    ensures Apply(Apply(System(r, stored), Accepting(e)), Hashing) == System(Hashed(Accept(r, e)), stored)
  {
    hide Accept, Hashed;
  }

  /** One more event arrives; its predecessor is sealed as chunk `k` and joins the queue. */
  lemma OneMore(k: nat)
    requires 1 <= k <= 9 && Run(Fill(k - 1)) == System(Held(k, Fulls(0, k), [], []), {})
    ensures Fulls(0, k) + [Full(k)] == Fulls(0, k + 1)
    ensures Run(Fill(k)) == System(Hashed(Held(k + 1, Fulls(0, k), [Full(k)], [])), {})
  {
    RunTwo(Fill(k - 1), Accepting(Big()), Hashing);
    AcceptHeld(k, Fulls(0, k));
    AcceptThenHash(Held(k, Fulls(0, k), [], []), Big(), {});
    hide Big, Hashed, Accept, Apply, Run;
  }

  lemma {:induction false} FillRuns(k: nat)
    requires k <= 8
    ensures Run(Fill(k)) == System(Held(k + 1, Fulls(0, k + 1), [], []), {})
  {
    if k == 0 {
      FirstUpload();
    } else {
      FillRuns(k - 1);
      OneMore(k);
      EvictAtCap(k + 1);
      hide Big, Bigs, Fulls, Full, Run, Fill, Evict, QueuedBytes, Hashed, Held;
      assert (Fulls(0, k) + [Full(k)])[..0] == [];
      HashHeld(k + 1, Fulls(0, k), Full(k), Fulls(0, k + 1), []);
    }
  }

  /** Hashing the tenth chunk evicts the chunk that is being uploaded. */
  lemma TenthEvicts()
    ensures Run(Fill(9)) == System(Held(10, Fulls(1, 10), [], [Full(0)]), {})
  {
    var n := 9;
    FillRuns(n - 1);
    OneMore(n);
    EvictAtCap(n + 1);
    hide Big, Bigs, Fulls, Full, Run, Fill, Evict, QueuedBytes, Hashed, Held;
    assert (Fulls(0, n) + [Full(n)])[..1] == [Full(0)];
    HashHeld(n + 1, Fulls(0, n), Full(n), Fulls(1, n + 1), [Full(0)]);
  }

  lemma AcknowledgedAfterEviction()
    ensures Apply(Apply(System(Held(10, Fulls(1, 10), [], [Full(0)]), {}), Arriving(Full(0))), Acknowledging(0))
         == System(Uploaded(Held(10, Fulls(1, 10), [], [Full(0)]), 0), {0})
  {
    hide Fulls, Big, Bigs, Uploaded;
    assert {} + {0} == {0};
  }

  lemma NextChunkLost(n: nat)
    requires 3 <= n
    ensures var r := Uploaded(Held(n, Fulls(1, n), [], [Full(0)]), 0);
            Lost(r, Full(1)) && r.log.evicted == [Full(0)]
  {
    hide Fulls, Big, Bigs;
    var r := Uploaded(Held(n, Fulls(1, n), [], [Full(0)]), 0);
    assert r.pending == Fulls(1, n)[1..] && r.log.sealed == Fulls(0, n);
    assert Full(1) == r.log.sealed[1];
    assert r.log.sent == {Full(0), Full(2)};
    assert [] + [Full(0)] == [Full(0)] == r.log.acked;
  }

  function LosingRun(): seq<Step> {
    Fill(9) + [Arriving(Full(0))] + [Acknowledging(0)]
  }

  lemma LosingRunEnds(n: nat)
    requires n == 10
    ensures Run(LosingRun()).recorder == Uploaded(Held(n, Fulls(1, n), [], [Full(0)]), 0)
  {
    hide Big, Bigs, Fulls, Full, Fill, Held, Run, Apply, Uploaded;
    TenthEvicts();
    RunTwo(Fill(9), Arriving(Full(0)), Acknowledging(0));
    AcknowledgedAfterEviction();
  }

  /** Delivery in order is false once the cap evicts: on this run chunk 1 is lost, though only chunk 0 was evicted. */
  lemma EvictionLosesNextChunk()
    ensures var r := Run(LosingRun()).recorder; Lost(r, Full(1)) && r.log.evicted == [Full(0)] && !InOrder(r)
  {
    hide *;
    LosingRunEnds(10);
    NextChunkLost(10);
    PrefixDelivery(LosingRun());
  }
}
