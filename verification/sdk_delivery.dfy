/**
 * The client together with a network that may deliver any request ever sent, at any
 * time and any number of times, and a server that validates each event and stores a
 * batch under its id.
 */
module SdkDelivery {
  import opened Sequences
  import opened SdkClient
  import opened SdkConservation
  import opened BatchStore

  /** `carried` only records: the events of the requests that claimed an id. */
  datatype System = System(client: Client, sent: set<Batch>, server: Server<Item>, carried: set<Item>)

  const FRESH_SYSTEM := System(FRESH_CLIENT, {}, Server(map[], []), {})

  /** `valid` is the verdict on each event at the moment of the request; the registry it rests on changes over time. */
  datatype Step =
    | Capturing(name: string, actor: string)
    | Identifying(kind: string, key: string)
    | Discarding(selected: Item -> bool)
    | Flushing(keepalive: bool)
    | Settling(drain: nat, outcome: Outcome)
    | Finishing(drain: nat)
    | Delivering(batch: Batch, now: int, valid: Item -> bool)

  /** The client reports success only when the server has answered for this batch id. */
  predicate Enabled(s: System, step: Step) {
    match step
    case Settling(d, outcome) =>
      && d < |s.client.drains| && s.client.drains[d].Awaiting?
      && (outcome == Ok && s.client.drains[d].sending.EventBatch? ==> s.client.drains[d].sending.id in s.server.claims)
    case Finishing(d) => d < |s.client.drains|
    case Delivering(b, _, _) => b in s.sent && b.EventBatch?
    case _ => true
  }

  function ClientAfter(cfg: Config, s: System, step: Step): Client
    requires Enabled(s, step)
  {
    match step
    case Capturing(name, actor) => Capture(cfg, s.client, name, actor)
    case Identifying(kind, key) => Identify(cfg, s.client, kind, key)
    case Discarding(selected) => Discard(s.client, selected)
    case Flushing(keepalive) => Flush(cfg, s.client, keepalive)
    case Settling(d, outcome) => Settle(cfg, s.client, d, outcome)
    case Finishing(d) => FinishFlush(s.client, d)
    case Delivering(_, _, _) => s.client
  }

  function InFlight(ds: seq<Drain>): set<Batch> {
    set d | d in ds && d.Awaiting? :: d.sending
  }

  /** A request reaches the server. */
  function Delivered(s: System, b: Batch, now: int, valid: Item -> bool): System
    requires b.EventBatch?
  {
    s.(server := Append(s.server, b.id, Select(b.items, valid), now),
       carried := if Takes(s.server, b.id, now) then s.carried + set x | x in b.items else s.carried)
  }

  /** One step; a step that is not enabled changes nothing. */
  function Apply(cfg: Config, s: System, step: Step): System {
    if !Enabled(s, step) then s
    else if step.Delivering? then Delivered(s, step.batch, step.now, step.valid)
    else
      var c := ClientAfter(cfg, s, step);
      s.(client := c, sent := s.sent + InFlight(c.drains))
  }

  function Run(cfg: Config, steps: seq<Step>): System {
    if steps == [] then FRESH_SYSTEM
    else Apply(cfg, Run(cfg, steps[..|steps| - 1]), steps[|steps| - 1])
  }

  // ---------------------------------------------------------------------------
  // Conservation over every run
  // ---------------------------------------------------------------------------

  lemma ApplySound(cfg: Config, s: System, step: Step)
    requires Sound(cfg, s.client)
    ensures Sound(cfg, Apply(cfg, s, step).client)
  {
    hide Sound, Capture, Identify, Discard, Flush, Settle, FinishFlush;
    if Enabled(s, step) {
      match step
      case Capturing(name, actor) => CaptureKeeps(cfg, s.client, name, actor);
      case Identifying(kind, key) => IdentifyKeeps(cfg, s.client, kind, key);
      case Discarding(selected) => DiscardKeeps(cfg, s.client, selected);
      case Flushing(keepalive) => FlushKeeps(cfg, s.client, keepalive);
      case Settling(d, outcome) => SettleKeeps(cfg, s.client, d, outcome);
      case Finishing(d) => FinishFlushKeeps(cfg, s.client, d);
      case Delivering(_, _, _) =>
    }
  }

  lemma {:induction false} RunSound(cfg: Config, steps: seq<Step>)
    ensures Sound(cfg, Run(cfg, steps).client)
  {
    if steps != [] {
      RunSound(cfg, steps[..|steps| - 1]);
      ApplySound(cfg, Run(cfg, steps[..|steps| - 1]), steps[|steps| - 1]);
    }
  }

  /**
   * Conservation: on every run, whatever the interleaving, each captured item is in exactly
   * one place: queued, waiting for a retry, claimed by exactly one drain, or gone as
   * accepted, rejected, evicted or discarded.
   */
  lemma Conservation(cfg: Config, steps: seq<Step>, x: Item)
    ensures var c := Run(cfg, steps).client;
            && HeldCount(c, x) + GoneCount(c.ledger, x) == (if x in c.ledger.captured then 1 else 0)
            && |c.retries| <= 100
            && |c.events| <= (if cfg.maxQueue < 0 then 0 else cfg.maxQueue)
  {
    RunSound(cfg, steps);
    var c := Run(cfg, steps).client;
    assert c.ledger.captured[x] == HeldCount(c, x) + multiset(Flat([]))[x] + GoneCount(c.ledger, x);
  }

  /** No two drains ever hold the same item, however they interleave. */
  lemma DrainsDisjoint(cfg: Config, steps: seq<Step>, d: nat, e: nat, x: Item)
    requires d < e < |Run(cfg, steps).client.drains|
    requires x in Flat(Claimed(Run(cfg, steps).client.drains[d]))
    ensures x !in Flat(Claimed(Run(cfg, steps).client.drains[e]))
  {
    var c := Run(cfg, steps).client;
    Conservation(cfg, steps, x);
    ClaimedAround(c.drains, e);
    ClaimedAround(c.drains[..e], d);
    assert c.drains[..e][d] == c.drains[d];
    var a, b := AllClaimed(c.drains[..e][..d]), AllClaimed(c.drains[..e][d + 1..]);
    var m, r := Claimed(c.drains[e]), AllClaimed(c.drains[e + 1..]);
    FlatMiddle(a + Claimed(c.drains[d]) + b, m, r);
    FlatMiddle(a, Claimed(c.drains[d]), b);
    assert multiset(Flat(Claimed(c.drains[d])))[x] >= 1;
    assert multiset(Flat(AllClaimed(c.drains)))[x] >= 1 + multiset(Flat(m))[x];
  }

  /** A periodic flush is running exactly while its flag is set, and there is never a second one. */
  lemma OnePeriodicFlush(cfg: Config, steps: seq<Step>)
    ensures var c := Run(cfg, steps).client;
            PeriodicCount(c.drains) == if c.flushing then 1 else 0
  {
    RunSound(cfg, steps);
  }

  // ---------------------------------------------------------------------------
  // How batches evolve
  // ---------------------------------------------------------------------------

  /**
   * Batches never grow and never change their id: whatever the client holds afterwards is
   * a batch it held before, possibly with fewer events, or was formed under a new id.
   */
  ghost predicate Evolves(c: Client, p: seq<Batch>, c': Client, p': seq<Batch>) {
    && c.nextBatch <= c'.nextBatch
    && (forall x :: x in c.ledger.batchOf ==> x in c'.ledger.batchOf && c'.ledger.batchOf[x] == c.ledger.batchOf[x])
    && (forall b :: b in Live(c') + p' ==> Descends(c, p, b))
  }

  ghost predicate Descends(c: Client, p: seq<Batch>, b: Batch) {
    b.EventBatch? ==> b.id >= c.nextBatch || exists o :: o in Live(c) + p && Shrunk(b, o)
  }

  lemma Kept(c: Client, p: seq<Batch>, b: Batch)
    requires b in Live(c) + p
    ensures Descends(c, p, b)
  {
    assert Shrunk(b, b);
  }

  lemma EvolvesThrough(c: Client, p: seq<Batch>, c1: Client, p1: seq<Batch>, c2: Client, p2: seq<Batch>)
    requires Evolves(c, p, c1, p1) && Evolves(c1, p1, c2, p2)
    ensures Evolves(c, p, c2, p2)
  {
    forall b | b in Live(c2) + p2 ensures Descends(c, p, b) {
      if b.EventBatch? && b.id < c.nextBatch {
        assert Descends(c1, p1, b);
        var o :| o in Live(c1) + p1 && Shrunk(b, o);
        assert Descends(c, p, o);
        var q :| q in Live(c) + p && Shrunk(o, q);
        assert Shrunk(b, q);
      }
    }
  }

  lemma MoveEvolves(c: Client, d: nat, x: Drain, p: seq<Batch>, p': seq<Batch>)
    requires d < |c.drains|
    requires forall b :: b in Claimed(x) + p' && b.EventBatch? ==> b in Live(c) + p || b.id >= c.nextBatch
    ensures Evolves(c, p, WithDrain(c, d, x), p')
  {
    var l, r := DrainUpdate(c.drains, d, x);
    forall b | b in Live(WithDrain(c, d, x)) + p' ensures Descends(c, p, b) {
      if b in Claimed(x) + p' {
        if b in Live(c) + p { Kept(c, p, b); }
      } else {
        Kept(c, p, b);
      }
    }
  }

  lemma StartEventsEvolves(cfg: Config, c: Client, d: nat, keepalive: bool)
    requires d < |c.drains| && Named(c, [])
    ensures Evolves(c, [], StartEvents(cfg, c, d, keepalive), [])
  {
    if c.events == [] {
      MoveEvolves(c, d, if keepalive then Finished else Returning, [], []);
    } else {
      var k := Spliced(|c.events|, BatchCap(cfg, keepalive));
      var x := Awaiting(keepalive, SendingEvents, EventBatch(c.nextBatch, c.events[..k]));
      MoveEvolves(c, d, x, [], []);
      assert Live(StartEvents(cfg, c, d, keepalive)) == Live(WithDrain(c, d, x));
      assert forall y :: y in c.events[..k] ==> y in c.events;
    }
  }

  lemma StartEntitiesEvolves(cfg: Config, c: Client, d: nat, keepalive: bool)
    requires d < |c.drains| && Named(c, [])
    ensures Evolves(c, [], StartEntities(cfg, c, d, keepalive), [])
  {
    if c.entities == [] {
      StartEventsEvolves(cfg, c, d, keepalive);
    } else {
      var k := Spliced(|c.entities|, BatchCap(cfg, keepalive));
      var x := Awaiting(keepalive, SendingEntities, EntityBatch(c.entities[..k]));
      MoveEvolves(c, d, x, [], []);
      assert Live(StartEntities(cfg, c, d, keepalive)) == Live(WithDrain(c, d, x));
    }
  }

  lemma StartRetriesEvolves(cfg: Config, c: Client, d: nat, keepalive: bool, pending: seq<Batch>)
    requires d < |c.drains| && Named(c, pending)
    ensures Evolves(c, pending, StartRetries(cfg, c, d, keepalive, pending), [])
  {
    if pending == [] {
      StartEntitiesEvolves(cfg, c, d, keepalive);
    } else {
      MoveEvolves(c, d, Awaiting(keepalive, Retrying(pending[1..]), pending[0]), pending, []);
    }
  }

  lemma FlushEvolves(cfg: Config, c: Client, keepalive: bool)
    requires Named(c, [])
    ensures Evolves(c, [], Flush(cfg, c, keepalive), [])
  {
    if !keepalive && c.flushing {
      forall b | b in Live(c) ensures Descends(c, [], b) { Kept(c, [], b); }
    } else {
      var c1 := FlushStarted(c, keepalive);
      ClaimedSnoc(c.drains);
      forall b | b in Live(c1) + c.retries ensures Descends(c, [], b) { Kept(c, [], b); }
      FlushNamed(c, keepalive);
      StartRetriesEvolves(cfg, c1, |c.drains|, keepalive, c.retries);
      EvolvesThrough(c, [], c1, c.retries, Flush(cfg, c, keepalive), []);
    }
  }

  lemma QueuedEvolves(cfg: Config, c: Client, c': Client)
    requires c'.drains == c.drains && c'.retries == c.retries && c'.nextBatch == c.nextBatch
    requires c'.ledger.batchOf == c.ledger.batchOf && Named(c', [])
    ensures Evolves(c, [], c', []) && Evolves(c, [], Flush(cfg, c', false), [])
  {
    forall b | b in Live(c') ensures Descends(c, [], b) { Kept(c, [], b); }
    FlushEvolves(cfg, c', false);
    EvolvesThrough(c, [], c', [], Flush(cfg, c', false), []);
  }

  lemma DiscardEvolves(c: Client, selected: Item -> bool)
    ensures Evolves(c, [], Discard(c, selected), [])
  {
    DiscardShrinks(c.retries, selected);
    forall b | b in Live(Discard(c, selected)) ensures Descends(c, [], b) {
      if b in DiscardBatches(c.retries, selected) {
        var o :| o in c.retries && Shrunk(b, o);
        assert o in Live(c) + [];
      } else {
        Kept(c, [], b);
      }
    }
  }

  /** The claimed batches go to the running step, which records the outcome of the first. */
  lemma RecordedEvolves(cfg: Config, c: Client, b: Batch, rest: seq<Batch>, outcome: Outcome)
    ensures Evolves(c, [b] + rest, Recorded(c, b, outcome), rest)
  {
    hide AllClaimed, Flat;
    var c' := Recorded(c, b, outcome);
    forall y | y in Live(c') + rest ensures Descends(c, [b] + rest, y) {
      assert y in Live(c) + ([b] + rest);
      Kept(c, [b] + rest, y);
    }
  }

  lemma ResumeEvolves(cfg: Config, c: Client, d: nat, keepalive: bool, phase: Phase)
    requires d < |c.drains| && Named(c, if phase.Retrying? then phase.rest else [])
    ensures Evolves(c, if phase.Retrying? then phase.rest else [], Resume(cfg, c, d, keepalive, phase), [])
  {
    hide Evolves, Named, StartRetries, StartEntities, StartEvents;
    match phase
    case Retrying(rest) => StartRetriesEvolves(cfg, c, d, keepalive, rest);
    case SendingEntities => StartEntitiesEvolves(cfg, c, d, keepalive);
    case SendingEvents => StartEventsEvolves(cfg, c, d, keepalive);
  }

  lemma ReleaseEvolves(c: Client, d: nat, claimed: seq<Batch>)
    requires d < |c.drains| && claimed == Claimed(c.drains[d])
    ensures Evolves(c, [], WithDrain(c, d, Finished), claimed)
  {
    hide Evolves;
    ClaimedAround(c.drains, d);
    assert forall b :: b in claimed ==> b in Live(c) + [];
    MoveEvolves(c, d, Finished, [], claimed);
  }

  lemma BalancedNamed(cfg: Config, c: Client, p: seq<Batch>, busy: nat)
    requires Balanced(cfg, c, p, busy)
    ensures Named(c, p)
  {
    hide Named;
  }

  lemma SettleEvolves(cfg: Config, c: Client, d: nat, outcome: Outcome)
    requires d < |c.drains| && c.drains[d].Awaiting? && Sound(cfg, c)
    ensures Evolves(c, [], Settle(cfg, c, d, outcome), [])
  {
    var Awaiting(keepalive, phase, b) := c.drains[d];
    var rest := if phase.Retrying? then phase.rest else [];
    assert Claimed(c.drains[d]) == [b] + rest;
    hide Evolves, Balanced, Claimed, Recorded, Resume, WithDrain;
    var c1 := WithDrain(c, d, Finished);
    assert Periodic(c.drains[d]) == Periodic(Finished) + Busy(keepalive);
    assert Claimed(Finished) + ([b] + rest) == Claimed(c.drains[d]) + [] by { FinishedClaims(); }
    Move(cfg, c, d, Finished, [], [b] + rest, 0, Busy(keepalive));
    RecordedBalanced(cfg, c1, b, rest, outcome, Busy(keepalive));
    var c2 := Recorded(c1, b, outcome);
    BalancedNamed(cfg, c2, rest, Busy(keepalive));
    ReleaseEvolves(c, d, [b] + rest);
    RecordedEvolves(cfg, c1, b, rest, outcome);
    EvolvesThrough(c, [], c1, [b] + rest, c2, rest);
    DrainsKept(c, d, b, outcome);
    ResumeEvolves(cfg, c2, d, keepalive, phase);
    EvolvesThrough(c, [], c2, rest, Settle(cfg, c, d, outcome), []);
  }

  lemma FinishedClaims()
    ensures Claimed(Finished) == []
  {
  }

  lemma DrainsKept(c: Client, d: nat, b: Batch, outcome: Outcome)
    requires d < |c.drains|
    ensures |Recorded(WithDrain(c, d, Finished), b, outcome).drains| == |c.drains|
  {
  }

  lemma FinishEvolves(c: Client, d: nat)
    requires d < |c.drains|
    ensures Evolves(c, [], FinishFlush(c, d), [])
  {
    var c' := FinishFlush(c, d);
    var l, r := DrainUpdate(c.drains, d, Finished);
    forall b | b in Live(c') ensures Descends(c, [], b) { Kept(c, [], b); }
  }

  lemma CaptureEvolves(cfg: Config, c: Client, name: string, actor: string)
    requires Sound(cfg, c)
    ensures Evolves(c, [], Capture(cfg, c, name, actor), [])
  {
    var item := Event(c.nextSerial, name, actor);
    EventNamed(cfg, c, item);
    QueuedEvolves(cfg, c, EventQueued(cfg, c, item));
  }

  lemma IdentifyEvolves(cfg: Config, c: Client, kind: string, key: string)
    requires Sound(cfg, c)
    ensures Evolves(c, [], Identify(cfg, c, kind, key), [])
  {
    var item := Entity(c.nextSerial, kind, key);
    EntityNamed(c, item);
    QueuedEvolves(cfg, c, EntityQueued(c, item));
  }

  lemma ClientEvolves(cfg: Config, s: System, step: Step)
    requires Enabled(s, step) && Sound(cfg, s.client)
    ensures Evolves(s.client, [], ClientAfter(cfg, s, step), [])
  {
    match step
    case Capturing(name, actor) => CaptureEvolves(cfg, s.client, name, actor);
    case Identifying(kind, key) => IdentifyEvolves(cfg, s.client, kind, key);
    case Discarding(selected) => DiscardEvolves(s.client, selected);
    case Flushing(keepalive) => FlushEvolves(cfg, s.client, keepalive);
    case Settling(d, outcome) => SettleEvolves(cfg, s.client, d, outcome);
    case Finishing(d) => FinishEvolves(s.client, d);
    case Delivering(_, _, _) =>
      forall b | b in Live(s.client) ensures Descends(s.client, [], b) { Kept(s.client, [], b); }
  }

  // ---------------------------------------------------------------------------
  // Stored once, and not lost
  // ---------------------------------------------------------------------------

  /** Every request ever sent carries events that belong to its id, and covers what the client still holds under it. */
  ghost predicate RequestsSound(s: System) {
    var c := s.client;
    && (forall b :: b in s.sent && b.EventBatch? ==> b.id < c.nextBatch && Owned(c.ledger.batchOf, b.id, b.items))
    && (forall b :: b in InFlight(c.drains) ==> b in s.sent)
    && (forall b, r :: b in Live(c) && r in s.sent ==> Covers(r, b))
  }

  ghost predicate Covers(request: Batch, b: Batch) {
    request.EventBatch? && b.EventBatch? && request.id == b.id ==> forall x :: x in b.items ==> x in request.items
  }

  /** What the server holds: entries under the id that owns them, and every claimed batch in full. */
  ghost predicate ServerSound(s: System) {
    var c := s.client;
    && Consistent(s.server, c.ledger.batchOf)
    && (forall id :: id in s.server.claims ==> id < c.nextBatch)
    && (forall b :: b in Live(c) && b.EventBatch? && b.id in s.server.claims ==> CarriedIn(s.carried, b))
    && (forall x: Item :: x in c.ledger.accepted && x.Event? ==> x in s.carried)
  }

  ghost predicate CarriedIn(carried: set<Item>, b: Batch) {
    forall x :: x in b.items ==> x in carried
  }

  lemma LiveDistinct(cfg: Config, c: Client, b: Batch)
    requires Sound(cfg, c) && b in Live(c)
    ensures Distinct(b.items)
  {
    var i :| 0 <= i < |Live(c)| && Live(c)[i] == b;
    assert Live(c) == Live(c)[..i] + [b] + Live(c)[i + 1..];
    FlatMiddle(Live(c)[..i], [b], Live(c)[i + 1..]);
    Single(b);
    FlatSum(c.retries, AllClaimed(c.drains));
    forall x ensures multiset(b.items)[x] <= 1 {
      assert c.ledger.captured[x] == HeldCount(c, x) + multiset(Flat([]))[x] + GoneCount(c.ledger, x);
      assert x in c.ledger.captured || c.ledger.captured[x] == 0;
      assert multiset(Flat(Live(c)))[x] >= multiset(b.items)[x];
    }
  }

  lemma {:induction false} IdListed(bs: seq<Batch>, b: Batch)
    ensures b in bs && b.EventBatch? ==> b.id in EventIds(bs)
  {
    if bs != [] {
      IdListed(bs[1..], b);
    }
  }

  /** Among batches with distinct ids, two with the same id are the same batch. */
  lemma {:induction false} SameId(bs: seq<Batch>, b: Batch, b': Batch)
    requires Distinct(EventIds(bs)) && b in bs && b' in bs
    requires b.EventBatch? && b'.EventBatch? && b.id == b'.id
    ensures b == b'
  {
    IdListed(bs[1..], b);
    IdListed(bs[1..], b');
    DistinctParts(IdOf(bs[0]), EventIds(bs[1..]));
    if !(bs[0].EventBatch? && bs[0].id == b.id) {
      SameId(bs[1..], b, b');
    }
  }

  lemma InFlightLive(c: Client, b: Batch)
    requires b in InFlight(c.drains)
    ensures b in Live(c)
  {
    var d :| d in c.drains && d.Awaiting? && d.sending == b;
    var i :| 0 <= i < |c.drains| && c.drains[i] == d;
    ClaimedAround(c.drains, i);
  }

  lemma InFlightSound(cfg: Config, c: Client, b: Batch)
    requires Sound(cfg, c) && b in InFlight(c.drains)
    ensures b in Live(c) && Proper(c, b) && Distinct(b.items)
  {
    InFlightLive(c, b);
    LiveDistinct(cfg, c, b);
    hide Accounted, Numbered, IdsUnique, Exclusive, InFlight, AllClaimed;
  }

  /** A request sent before still covers what the client holds under its id. */
  lemma OldCovers(s: System, c: Client, b: Batch, r: Batch)
    requires Evolves(s.client, [], c, []) && RequestsSound(s) && b in Live(c) && r in s.sent
    ensures Covers(r, b)
  {
    hide InFlight, AllClaimed;
    if b.EventBatch? && r.EventBatch? && r.id == b.id {
      assert b in Live(c) + [] && Descends(s.client, [], b);
      var o :| o in Live(s.client) + [] && Shrunk(b, o);
      assert Covers(r, o);
    }
  }

  lemma NewCovers(cfg: Config, c: Client, b: Batch, r: Batch)
    requires Sound(cfg, c) && b in Live(c) && r in Live(c)
    ensures Covers(r, b)
  {
    assert [] + Live(c) == Live(c);
    assert Distinct(EventIds(Live(c)));
    hide Sound, Live, EventIds;
    if b.EventBatch? && r.EventBatch? && r.id == b.id {
      SameId(Live(c), b, r);
    }
  }

  lemma NewRequestsSound(cfg: Config, s: System, c: Client)
    requires Sound(cfg, s.client) && Sound(cfg, c) && Evolves(s.client, [], c, []) && RequestsSound(s)
    ensures RequestsSound(s.(client := c, sent := s.sent + InFlight(c.drains)))
  {
    hide Sound, Covers, Live, InFlight, Distinct, Descends;
    var s' := s.(client := c, sent := s.sent + InFlight(c.drains));
    forall b | b in InFlight(c.drains) ensures b in Live(c) && Proper(c, b) && Distinct(b.items) {
      InFlightSound(cfg, c, b);
    }
    forall b, r | b in Live(c) && r in s'.sent ensures Covers(r, b) {
      if r in InFlight(c.drains) {
        NewCovers(cfg, c, b, r);
      } else {
        OldCovers(s, c, b, r);
      }
    }
    forall b | b in s'.sent && b.EventBatch? ensures b.id < c.nextBatch && Owned(c.ledger.batchOf, b.id, b.items) {
      if b in s.sent { OwnedGrows(s.client.ledger.batchOf, c.ledger.batchOf, b.id, b.items); }
    }
  }

  lemma OwnedGrows(owner: map<Item, nat>, owner': map<Item, nat>, id: nat, items: seq<Item>)
    requires Owned(owner, id, items) && forall x :: x in owner ==> x in owner' && owner'[x] == owner[x]
    ensures Owned(owner', id, items)
  {
  }

  lemma FlushAccepts(cfg: Config, c: Client, keepalive: bool)
    ensures Flush(cfg, c, keepalive).ledger.accepted == c.ledger.accepted
  {
    hide Spliced;
  }

  lemma SettleAccepts(cfg: Config, c: Client, d: nat, outcome: Outcome)
    requires d < |c.drains| && c.drains[d].Awaiting?
    ensures Settle(cfg, c, d, outcome).ledger.accepted
         == c.ledger.accepted + if outcome == Ok then multiset(c.drains[d].sending.items) else multiset{}
  {
    hide Spliced, Flat;
  }

  lemma QueueAccepts(cfg: Config, c: Client, name: string, actor: string)
    ensures Capture(cfg, c, name, actor).ledger.accepted == c.ledger.accepted
    ensures Identify(cfg, c, name, actor).ledger.accepted == c.ledger.accepted
  {
    FlushAccepts(cfg, EventQueued(cfg, c, Event(c.nextSerial, name, actor)), false);
    FlushAccepts(cfg, EntityQueued(c, Entity(c.nextSerial, name, actor)), false);
    hide Flush, Spliced;
  }

  lemma Accepts(cfg: Config, s: System, step: Step)
    requires Enabled(s, step)
    ensures forall x :: x in ClientAfter(cfg, s, step).ledger.accepted ==>
              x in s.client.ledger.accepted
              || (step.Settling? && step.outcome == Ok && x in s.client.drains[step.drain].sending.items)
  {
    hide Capture, Identify, Flush, Settle, DiscardBatches, DiscardedItems;
    match step
    case Capturing(name, actor) => QueueAccepts(cfg, s.client, name, actor);
    case Identifying(kind, key) => QueueAccepts(cfg, s.client, kind, key);
    case Flushing(keepalive) => FlushAccepts(cfg, s.client, keepalive);
    case Settling(d, outcome) => SettleAccepts(cfg, s.client, d, outcome);
    case _ =>
  }

  lemma LiveCarried(s: System, c: Client)
    requires Evolves(s.client, [], c, []) && ServerSound(s)
    ensures forall b :: b in Live(c) && b.EventBatch? && b.id in s.server.claims ==> CarriedIn(s.carried, b)
  {
    forall b | b in Live(c) && b.EventBatch? && b.id in s.server.claims ensures CarriedIn(s.carried, b) {
      assert b in Live(c) + [] && Descends(s.client, [], b);
      var o :| o in Live(s.client) + [] && Shrunk(b, o);
      assert CarriedIn(s.carried, o);
    }
  }

  lemma SettledCarried(s: System, d: nat)
    requires ServerSound(s) && Named(s.client, []) && Enabled(s, Settling(d, Ok))
    ensures forall x :: x in s.client.drains[d].sending.items && x.Event? ==> x in s.carried
  {
    var b := s.client.drains[d].sending;
    InFlightLive(s.client, b);
    assert Proper(s.client, b);
    if b.EventBatch? {
      assert CarriedIn(s.carried, b);
    }
  }

  lemma ClientStepServerSound(cfg: Config, s: System, step: Step)
    requires Enabled(s, step) && !step.Delivering?
    requires Sound(cfg, s.client) && ServerSound(s)
    ensures ServerSound(Apply(cfg, s, step))
  {
    var c := ClientAfter(cfg, s, step);
    ClientEvolves(cfg, s, step);
    LiveCarried(s, c);
    ConsistentGrows(s.server, s.client.ledger.batchOf, c.ledger.batchOf);
    Accepts(cfg, s, step);
    if step.Settling? && step.outcome == Ok {
      SettledCarried(s, step.drain);
    }
  }

  lemma SelectOwned(owner: map<Item, nat>, id: nat, items: seq<Item>, valid: Item -> bool)
    requires Owned(owner, id, items)
    ensures Owned(owner, id, Select(items, valid))
  {
    SelectReject(items, valid);
    forall x ensures multiset(Select(items, valid))[x] <= 1 {
      assert multiset(items)[x] == multiset(Select(items, valid))[x] + multiset(Reject(items, valid))[x];
    }
  }

  lemma DeliveryServerSound(s: System, r: Batch, now: int, valid: Item -> bool)
    requires r in s.sent && r.EventBatch? && RequestsSound(s) && ServerSound(s)
    ensures ServerSound(Delivered(s, r, now, valid))
  {
    var kept := Select(r.items, valid);
    SelectOwned(s.client.ledger.batchOf, r.id, r.items, valid);
    AppendConsistent(s.server, s.client.ledger.batchOf, r.id, kept, now);
    var s' := Delivered(s, r, now, valid);
    forall b | b in Live(s.client) && b.EventBatch? && b.id in s'.server.claims ensures CarriedIn(s'.carried, b) {
      if b.id in s.server.claims {
        assert CarriedIn(s.carried, b);
      } else {
        assert Covers(r, b);
      }
    }
  }

  lemma SameRequests(s: System, s': System)
    requires RequestsSound(s) && s'.client == s.client && s'.sent == s.sent
    ensures RequestsSound(s')
  {
  }

  /** Everything the delivery theorems rest on, over every run. */
  lemma {:induction false} RunDelivers(cfg: Config, steps: seq<Step>)
    ensures var s := Run(cfg, steps);
            Sound(cfg, s.client) && RequestsSound(s) && ServerSound(s)
  {
    RunSound(cfg, steps);
    if steps != [] {
      hide Sound, RequestsSound, ServerSound, ClientAfter, Evolves;
      var s, step := Run(cfg, steps[..|steps| - 1]), steps[|steps| - 1];
      RunDelivers(cfg, steps[..|steps| - 1]);
      if Enabled(s, step) {
        if step.Delivering? {
          DeliveryServerSound(s, step.batch, step.now, step.valid);
          SameRequests(s, Apply(cfg, s, step));
        } else {
          ClientEvolves(cfg, s, step);
          NewRequestsSound(cfg, s, ClientAfter(cfg, s, step));
          ClientStepServerSound(cfg, s, step);
        }
      }
    }
  }

  /** A request that takes over an expired claim and carries an event already stored. */
  ghost predicate Restores(s: System, step: Step) {
    && Enabled(s, step) && step.Delivering? && step.batch.id in s.server.claims && s.server.claims[step.batch.id] < step.now - 3_024_000_000
    && exists x :: x in Select(step.batch.items, step.valid) && x in Items(s.server.log)
  }

  lemma StepAtMostOnce(cfg: Config, s: System, step: Step)
    requires Sound(cfg, s.client) && RequestsSound(s) && ServerSound(s)
    ensures AtMostOnce(Apply(cfg, s, step).server) <==> AtMostOnce(s.server) && !Restores(s, step)
  {
    if Enabled(s, step) && step.Delivering? {
      var r, kept := step.batch, Select(step.batch.items, step.valid);
      var owner := s.client.ledger.batchOf;
      SelectOwned(owner, r.id, r.items, step.valid);
      if AtMostOnce(s.server) {
        AppendAtMostOnce(s.server, owner, r.id, kept, step.now);
      } else {
        ItemsOfEntries(s.server.log, r.id, kept);
        if AtMostOnce(Append(s.server, r.id, kept, step.now)) && Append(s.server, r.id, kept, step.now) != s.server {
          DistinctParts(Items(s.server.log), kept);
        }
      }
    }
  }

  ghost predicate NeverRestores(cfg: Config, steps: seq<Step>) {
    steps == []
    || (NeverRestores(cfg, steps[..|steps| - 1])
        && !Restores(Run(cfg, steps[..|steps| - 1]), steps[|steps| - 1]))
  }

  /**
   * Stored at most once, exactly: on every run, including lost responses, resends under the
   * same id and batches shrunk by a discard, every event is stored at most once if and only
   * if no request takes over an expired claim while carrying an event already stored.
   */
  lemma {:induction false} StoredAtMostOnce(cfg: Config, steps: seq<Step>)
    ensures AtMostOnce(Run(cfg, steps).server) <==> NeverRestores(cfg, steps)
  {
    if steps != [] {
      var before := steps[..|steps| - 1];
      StoredAtMostOnce(cfg, before);
      RunDelivers(cfg, before);
      StepAtMostOnce(cfg, Run(cfg, before), steps[|steps| - 1]);
    }
  }

  // ---------------------------------------------------------------------------
  // What acceptance means
  // ---------------------------------------------------------------------------

  /** Step `i` is a request with this event that claims its id; only such a request stores anything. */
  ghost predicate Carries(cfg: Config, steps: seq<Step>, i: int, x: Item) {
    && 0 <= i < |steps| && steps[i].Delivering? && Enabled(Run(cfg, steps[..i]), steps[i])
    && Takes(Run(cfg, steps[..i]).server, steps[i].batch.id, steps[i].now) && x in steps[i].batch.items
  }

  lemma CarriesBefore(cfg: Config, steps: seq<Step>, i: nat, x: Item)
    requires i < |steps| - 1
    ensures Carries(cfg, steps, i, x) <==> Carries(cfg, steps[..|steps| - 1], i, x)
  {
    assert steps[..|steps| - 1][..i] == steps[..i];
  }

  lemma StepCarries(cfg: Config, s: System, step: Step, x: Item)
    ensures var carries := Enabled(s, step) && step.Delivering? && Takes(s.server, step.batch.id, step.now) && x in step.batch.items;
            && (x in Apply(cfg, s, step).carried <==> x in s.carried || carries)
            && (x in Items(Apply(cfg, s, step).server.log) <==> x in Items(s.server.log) || (carries && step.valid(x)))
  {
    if Enabled(s, step) && step.Delivering? {
      ItemsOfEntries(s.server.log, step.batch.id, Select(step.batch.items, step.valid));
    }
    hide ClientAfter;
  }

  ghost predicate CarriedSome(cfg: Config, steps: seq<Step>, x: Item) {
    exists i :: Carries(cfg, steps, i, x)
  }

  /** A request that claimed its id carried the event and found it valid. */
  ghost predicate CarriedValid(cfg: Config, steps: seq<Step>, x: Item) {
    exists i :: Carries(cfg, steps, i, x) && steps[i].valid(x)
  }

  lemma CarriedLast(cfg: Config, steps: seq<Step>, x: Item)
    requires steps != []
    ensures var before, last := steps[..|steps| - 1], |steps| - 1;
            && (CarriedSome(cfg, steps, x) <==> CarriedSome(cfg, before, x) || Carries(cfg, steps, last, x))
            && (CarriedValid(cfg, steps, x) <==> CarriedValid(cfg, before, x) || (Carries(cfg, steps, last, x) && steps[last].valid(x)))
  {
    var before, last := steps[..|steps| - 1], |steps| - 1;
    forall i | 0 <= i < last ensures Carries(cfg, steps, i, x) <==> Carries(cfg, before, i, x) {
      CarriesBefore(cfg, steps, i, x);
    }
    assert forall i :: Carries(cfg, steps, i, x) ==> 0 <= i <= last;
    assert forall i :: Carries(cfg, before, i, x) ==> 0 <= i < last && steps[i] == before[i];
    hide Carries;
    if CarriedValid(cfg, steps, x) {
      var i :| Carries(cfg, steps, i, x) && steps[i].valid(x);
      assert i == last || Carries(cfg, before, i, x);
    }
    if CarriedValid(cfg, before, x) {
      var i :| Carries(cfg, before, i, x) && before[i].valid(x);
      assert Carries(cfg, steps, i, x);
    }
  }

  /** An event is stored exactly if a request that claimed its id carried it and found it valid. */
  lemma {:induction false} StoredIff(cfg: Config, steps: seq<Step>, x: Item)
    ensures x in Run(cfg, steps).carried <==> CarriedSome(cfg, steps, x)
    ensures x in Items(Run(cfg, steps).server.log) <==> CarriedValid(cfg, steps, x)
  {
    if steps != [] {
      var before, last := steps[..|steps| - 1], |steps| - 1;
      StoredIff(cfg, before, x);
      StepCarries(cfg, Run(cfg, before), steps[last], x);
      CarriedLast(cfg, steps, x);
      hide CarriedSome, CarriedValid, Items, Apply;
    }
  }

  /**
   * An event of an accepted request was carried by a request that claimed its id. It is in the store
   * exactly if one of those found it valid: what the requests after them find makes no difference.
   */
  lemma AcceptedStoredIff(cfg: Config, steps: seq<Step>, x: Item)
    requires x.Event? && x in Run(cfg, steps).client.ledger.accepted
    ensures CarriedSome(cfg, steps, x)
    ensures x in Items(Run(cfg, steps).server.log) <==> CarriedValid(cfg, steps, x)
  {
    RunDelivers(cfg, steps);
    StoredIff(cfg, steps, x);
  }

  /** Requests that all reach the server within one reclaim interval. */
  ghost predicate Within(steps: seq<Step>, from: int) {
    forall i :: 0 <= i < |steps| && steps[i].Delivering? ==> from <= steps[i].now <= from + 3_024_000_000
  }

  lemma {:induction false} ClaimsWithin(cfg: Config, steps: seq<Step>, from: int)
    requires Within(steps, from)
    ensures forall id :: id in Run(cfg, steps).server.claims ==> from <= Run(cfg, steps).server.claims[id]
    ensures NeverRestores(cfg, steps)
  {
    if steps != [] {
      ClaimsWithin(cfg, steps[..|steps| - 1], from);
    }
  }

  lemma {:induction false} RunGrows(cfg: Config, steps: seq<Step>, i: nat)
    requires i <= |steps|
    ensures Run(cfg, steps[..i]).sent <= Run(cfg, steps).sent
    ensures Run(cfg, steps[..i]).server.claims.Keys <= Run(cfg, steps).server.claims.Keys
  {
    if i == |steps| {
      assert steps[..i] == steps;
    } else {
      assert steps[..|steps| - 1][..i] == steps[..i];
      RunGrows(cfg, steps[..|steps| - 1], i);
    }
  }

  /** Requests that carry one event have one id. */
  lemma SameOwner(cfg: Config, steps: seq<Step>, a: Batch, b: Batch, x: Item)
    requires a in Run(cfg, steps).sent && b in Run(cfg, steps).sent && a.EventBatch? && b.EventBatch?
    requires x in a.items && x in b.items
    ensures a.id == b.id
  {
    RunDelivers(cfg, steps);
    hide Run, ServerSound, SdkConservation.Sound;
    var owner := Run(cfg, steps).client.ledger.batchOf;
    assert Owned(owner, a.id, a.items) && Owned(owner, b.id, b.items);
  }

  /** Within one interval only one request ever carries an event into a claim. */
  lemma CarriesOnce(cfg: Config, steps: seq<Step>, from: int, i: int, j: int, x: Item)
    requires Within(steps, from) && i < j && Carries(cfg, steps, i, x)
    ensures !Carries(cfg, steps, j, x)
  {
    if Carries(cfg, steps, j, x) {
      var upTo := steps[..j];
      assert upTo[..i] == steps[..i] && upTo[..i + 1] == steps[..i + 1];
      RunGrows(cfg, upTo, i);
      RunGrows(cfg, upTo, i + 1);
      ClaimsWithin(cfg, upTo, from);
      ClaimedAfter(cfg, steps, i, x);
      hide Run, NeverRestores;
      SameOwner(cfg, upTo, steps[i].batch, steps[j].batch, x);
      assert false;
    }
  }

  lemma ClaimedAfter(cfg: Config, steps: seq<Step>, i: int, x: Item)
    requires Carries(cfg, steps, i, x)
    ensures steps[i].batch.id in Run(cfg, steps[..i + 1]).server.claims && steps[i].batch in Run(cfg, steps[..i]).sent
  {
    assert steps[..i + 1][..i] == steps[..i];
  }

  /**
   * Exactly once: within one reclaim interval, exactly one request carries an accepted event into a
   * claim, and the event is stored once if that request found it valid, else never.
   */
  lemma ExactlyOnce(cfg: Config, steps: seq<Step>, from: int, x: Item)
    requires Within(steps, from)
    requires x.Event? && x in Run(cfg, steps).client.ledger.accepted
    ensures CarriedSome(cfg, steps, x) && forall i, j :: Carries(cfg, steps, i, x) && Carries(cfg, steps, j, x) ==> i == j
    ensures forall i :: Carries(cfg, steps, i, x) ==> multiset(Items(Run(cfg, steps).server.log))[x] == if steps[i].valid(x) then 1 else 0
  {
    AcceptedStoredIff(cfg, steps, x);
    StoredOnce(cfg, steps, from, x);
    forall i, j | Carries(cfg, steps, i, x) && Carries(cfg, steps, j, x) ensures i == j {
      if i < j { CarriesOnce(cfg, steps, from, i, j, x); } else if j < i { CarriesOnce(cfg, steps, from, j, i, x); }
    }
    hide Run, Carries, Within, Items;
  }

  lemma StoredOnce(cfg: Config, steps: seq<Step>, from: int, x: Item)
    requires Within(steps, from)
    ensures var items := Items(Run(cfg, steps).server.log); multiset(items)[x] == if x in items then 1 else 0
  {
    ClaimsWithin(cfg, steps, from);
    StoredAtMostOnce(cfg, steps);
    hide Run, Within, NeverRestores;
    var items := Items(Run(cfg, steps).server.log);
    assert x in multiset(items) <==> x in items;
    assert multiset(items)[x] <= 1;
  }

  // ---------------------------------------------------------------------------
  // Two runs
  // ---------------------------------------------------------------------------

  function AllValid(): Item -> bool { (x: Item) => true }
  function NoneValid(): Item -> bool { (x: Item) => false }

  const DEFAULTS := Config(100, 10000)
  const FIRST_EVENT := Event(0, "signup.completed", "u1")
  const FIRST_BATCH := EventBatch(0, [FIRST_EVENT])

  /** One event is captured and sent. */
  function FirstSteps(): seq<Step> {
    [Capturing("signup.completed", "u1"), Flushing(true)]
  }

  lemma FirstCapture()
    ensures var c := Capture(DEFAULTS, FRESH_CLIENT, "signup.completed", "u1");
            c.events == [FIRST_EVENT] && c.entities == [] && c.retries == [] && c.drains == [] && c.nextBatch == 0
  {
    assert [] + [FIRST_EVENT] == [FIRST_EVENT] && [FIRST_EVENT][0..] == [FIRST_EVENT];
  }

  lemma FirstFlush(c: Client)
    requires c.events == [FIRST_EVENT] && c.entities == [] && c.retries == [] && c.drains == [] && c.nextBatch == 0
    ensures Flush(DEFAULTS, c, true).drains == [Awaiting(true, SendingEvents, FIRST_BATCH)]
  {
    assert [FIRST_EVENT][..1] == [FIRST_EVENT];
  }

  predicate FirstSent(s: System) {
    s.client.drains == [Awaiting(true, SendingEvents, FIRST_BATCH)] && FIRST_BATCH in s.sent && s.server == Server(map[], [])
  }

  lemma FirstRun()
    ensures FirstSent(Run(DEFAULTS, FirstSteps()))
  {
    var s0, s1 := [Capturing("signup.completed", "u1")], FirstSteps();
    assert s1[..1] == s0 && s0[..0] == [];
    hide Capture, Flush;
    FirstCapture();
    FirstFlush(Capture(DEFAULTS, FRESH_CLIENT, "signup.completed", "u1"));
    assert Run(DEFAULTS, []) == FRESH_SYSTEM;
    assert Run(DEFAULTS, s0) == Apply(DEFAULTS, FRESH_SYSTEM, s0[0]);
    assert Run(DEFAULTS, s1) == Apply(DEFAULTS, Run(DEFAULTS, s0), s1[1]);
    var drain := Awaiting(true, SendingEvents, FIRST_BATCH);
    assert Run(DEFAULTS, s1).client.drains == [drain];
    assert drain in [drain];
    assert FIRST_BATCH in InFlight([drain]);
  }

  lemma RunOne(cfg: Config, steps: seq<Step>, step: Step)
    ensures Run(cfg, steps + [step]) == Apply(cfg, Run(cfg, steps), step)
  {
    assert (steps + [step])[..|steps|] == steps;
  }

  lemma FirstDelivery(s: System, valid: Item -> bool)
    requires FirstSent(s)
    ensures var s' := Apply(DEFAULTS, s, Delivering(FIRST_BATCH, 0, valid));
            && s'.client == s.client && s'.sent == s.sent
            && s'.server == Server(map[0 := 0], if valid(FIRST_EVENT) then [Entry(0, FIRST_EVENT)] else [])
  {
    assert Select([FIRST_EVENT], valid) == if valid(FIRST_EVENT) then [FIRST_EVENT] else [];
  }

  /** Outside the interval the promise fails: a resend one millisecond too late is stored again. */
  lemma LateResendStoredTwice()
    ensures var steps := FirstSteps() + [Delivering(FIRST_BATCH, 0, AllValid())] + [Delivering(FIRST_BATCH, 3_024_000_000 + 1, AllValid())];
            Items(Run(DEFAULTS, steps).server.log) == [FIRST_EVENT, FIRST_EVENT]
  {
    FirstRun();
    hide Run;
    RunOne(DEFAULTS, FirstSteps(), Delivering(FIRST_BATCH, 0, AllValid()));
    FirstDelivery(Run(DEFAULTS, FirstSteps()), AllValid());
    var s := Run(DEFAULTS, FirstSteps() + [Delivering(FIRST_BATCH, 0, AllValid())]);
    RunOne(DEFAULTS, FirstSteps() + [Delivering(FIRST_BATCH, 0, AllValid())], Delivering(FIRST_BATCH, 3_024_000_000 + 1, AllValid()));
    assert Select([FIRST_EVENT], AllValid()) == [FIRST_EVENT];
    ItemsOfEntries(s.server.log, 0, [FIRST_EVENT]);
  }

  /**
   * An event that was refused when its id was claimed is lost, although the client is told of success
   * by a later request that would have found it valid.
   */
  lemma RefusedThenAccepted()
    ensures var steps := FirstSteps() + [Delivering(FIRST_BATCH, 0, NoneValid())] + [Delivering(FIRST_BATCH, 1, AllValid())] + [Settling(0, Ok)];
            FIRST_EVENT in Run(DEFAULTS, steps).client.ledger.accepted && Run(DEFAULTS, steps).server.log == []
  {
    FirstRun();
    hide Run;
    var claimed := FirstSteps() + [Delivering(FIRST_BATCH, 0, NoneValid())];
    var resent := claimed + [Delivering(FIRST_BATCH, 1, AllValid())];
    RunOne(DEFAULTS, FirstSteps(), Delivering(FIRST_BATCH, 0, NoneValid()));
    FirstDelivery(Run(DEFAULTS, FirstSteps()), NoneValid());
    RunOne(DEFAULTS, claimed, Delivering(FIRST_BATCH, 1, AllValid()));
    RunOne(DEFAULTS, resent, Settling(0, Ok));
    var s := Run(DEFAULTS, resent);
    assert s.client.drains == [Awaiting(true, SendingEvents, FIRST_BATCH)] && 0 in s.server.claims;
    assert FIRST_BATCH.items == [FIRST_EVENT] && FIRST_EVENT in FIRST_BATCH.items;
    SettleAccepts(DEFAULTS, s.client, 0, Ok);
    hide Settle;
  }
}
