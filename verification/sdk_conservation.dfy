/** What every step of the client keeps: nothing is lost, doubled or left unaccounted. */
module SdkConservation {
  import opened Sequences
  import opened SdkClient

  /** Everything captured is held, in the hands of the running step, or gone for a recorded reason. */
  ghost predicate Accounted(c: Client, pending: seq<Batch>) {
    forall x :: c.ledger.captured[x] == HeldCount(c, x) + multiset(Flat(pending))[x] + GoneCount(c.ledger, x)
  }

  ghost predicate Numbered(c: Client) {
    && (forall x :: x in c.ledger.captured ==> x.serial < c.nextSerial && c.ledger.captured[x] == 1)
    && (forall x :: x in c.ledger.batchOf ==> x in c.ledger.captured)
  }

  ghost predicate Bounded(cfg: Config, c: Client) {
    |c.retries| <= 100 && |c.events| <= (if cfg.maxQueue < 0 then 0 else cfg.maxQueue)
  }

  /** At most one periodic flush runs, exactly while its flag is set; `busy` counts the running step. */
  ghost predicate Exclusive(c: Client, busy: nat) {
    PeriodicCount(c.drains) + busy == if c.flushing then 1 else 0
  }

  /** Each event is given one batch id for life. */
  ghost predicate Named(c: Client, pending: seq<Batch>) {
    && (forall x :: x in c.events ==> x.Event? && x !in c.ledger.batchOf)
    && (forall x :: x in c.entities ==> x.Entity?)
    && (forall x :: x in c.ledger.batchOf ==> c.ledger.batchOf[x] < c.nextBatch)
    && (forall b :: b in Live(c) ==> Proper(c, b))
    && (forall b :: b in pending ==> Proper(c, b))
  }

  ghost predicate Proper(c: Client, b: Batch) {
    match b
    case EventBatch(id, items) =>
      id < c.nextBatch && forall x :: x in items ==> x.Event? && x in c.ledger.batchOf && c.ledger.batchOf[x] == id
    case EntityBatch(items) => forall x :: x in items ==> x.Entity?
  }

  /** No two event batches the client holds share an id. */
  ghost predicate IdsUnique(c: Client, pending: seq<Batch>) {
    Distinct(EventIds(pending + Live(c)))
  }

  /**
   * The invariant while a step is running: `pending` are batches it has taken out of the
   * state, and `busy` is 1 while it runs inside the periodic flush.
   */
  ghost predicate Balanced(cfg: Config, c: Client, pending: seq<Batch>, busy: nat) {
    Accounted(c, pending) && Numbered(c) && Bounded(cfg, c) && Exclusive(c, busy)
    && Named(c, pending) && IdsUnique(c, pending)
  }

  ghost predicate Sound(cfg: Config, c: Client) {
    Balanced(cfg, c, [], 0)
  }

  function Busy(keepalive: bool): nat {
    if keepalive then 0 else 1
  }

  lemma Single(b: Batch)
    ensures Flat([b]) == b.items && EventIds([b]) == IdOf(b)
  {
    assert [b][1..] == [];
  }

  lemma FlatSum(a: seq<Batch>, b: seq<Batch>)
    ensures multiset(Flat(a + b)) == multiset(Flat(a)) + multiset(Flat(b))
  {
    FlatAppend(a, b);
  }

  lemma IdsSum(a: seq<Batch>, b: seq<Batch>)
    ensures multiset(EventIds(a + b)) == multiset(EventIds(a)) + multiset(EventIds(b))
  {
    EventIdsAppend(a, b);
  }

  // ----- batches move between the running step (`p`, then `p'`) and a drain -----

  lemma MoveItems(ds: seq<Drain>, d: nat, x: Drain, p: seq<Batch>, p': seq<Batch>)
    requires d < |ds| && Claimed(ds[d]) + p == Claimed(x) + p'
    ensures multiset(Flat(AllClaimed(ds[d := x]))) + multiset(Flat(p')) == multiset(Flat(AllClaimed(ds))) + multiset(Flat(p))
  {
    var l, r := DrainUpdate(ds, d, x);
    FlatSum(Claimed(ds[d]), p);
    FlatSum(Claimed(x), p');
    FlatMiddle(l, Claimed(x), r);
    FlatMiddle(l, Claimed(ds[d]), r);
    Exchange(multiset(Flat(l)) + multiset(Flat(r)), multiset(Flat(Claimed(x))), multiset(Flat(p')),
             multiset(Flat(Claimed(ds[d]))), multiset(Flat(p)));
  }

  lemma FlatMiddle(l: seq<Batch>, m: seq<Batch>, r: seq<Batch>)
    ensures multiset(Flat(l + m + r)) == (multiset(Flat(l)) + multiset(Flat(r))) + multiset(Flat(m))
  {
    FlatSum(l + m, r);
    FlatSum(l, m);
  }

  lemma IdsMiddle(l: seq<Batch>, m: seq<Batch>, r: seq<Batch>)
    ensures multiset(EventIds(l + m + r)) == (multiset(EventIds(l)) + multiset(EventIds(r))) + multiset(EventIds(m))
  {
    IdsSum(l + m, r);
    IdsSum(l, m);
  }

  lemma MoveIds(ds: seq<Drain>, d: nat, x: Drain, p: seq<Batch>, p': seq<Batch>)
    requires d < |ds| && Claimed(ds[d]) + p == Claimed(x) + p'
    ensures multiset(EventIds(AllClaimed(ds[d := x]))) + multiset(EventIds(p')) == multiset(EventIds(AllClaimed(ds))) + multiset(EventIds(p))
  {
    var l, r := DrainUpdate(ds, d, x);
    IdsSum(Claimed(ds[d]), p);
    IdsSum(Claimed(x), p');
    IdsMiddle(l, Claimed(x), r);
    IdsMiddle(l, Claimed(ds[d]), r);
    Exchange(multiset(EventIds(l)) + multiset(EventIds(r)), multiset(EventIds(Claimed(x))), multiset(EventIds(p')),
             multiset(EventIds(Claimed(ds[d]))), multiset(EventIds(p)));
  }

  lemma MoveAccounted(c: Client, d: nat, x: Drain, p: seq<Batch>, p': seq<Batch>)
    requires d < |c.drains| && Claimed(c.drains[d]) + p == Claimed(x) + p'
    requires Accounted(c, p)
    ensures Accounted(WithDrain(c, d, x), p')
  {
    MoveItems(c.drains, d, x, p, p');
    forall y ensures WithDrain(c, d, x).ledger.captured[y]
      == HeldCount(WithDrain(c, d, x), y) + multiset(Flat(p'))[y] + GoneCount(c.ledger, y)
    {
      assert (multiset(Flat(AllClaimed(c.drains[d := x]))) + multiset(Flat(p')))[y]
          == (multiset(Flat(AllClaimed(c.drains))) + multiset(Flat(p)))[y];
    }
  }

  lemma AllIds(c: Client, p: seq<Batch>)
    ensures multiset(EventIds(p + Live(c)))
         == multiset(EventIds(c.retries)) + (multiset(EventIds(AllClaimed(c.drains))) + multiset(EventIds(p)))
  {
    EventIdsAppend(p, Live(c));
    EventIdsAppend(c.retries, AllClaimed(c.drains));
  }

  lemma MoveUnique(c: Client, d: nat, x: Drain, p: seq<Batch>, p': seq<Batch>)
    requires d < |c.drains| && Claimed(c.drains[d]) + p == Claimed(x) + p'
    requires IdsUnique(c, p)
    ensures IdsUnique(WithDrain(c, d, x), p')
  {
    MoveIds(c.drains, d, x, p, p');
    AllIds(c, p);
    AllIds(WithDrain(c, d, x), p');
  }

  lemma MoveNamed(c: Client, d: nat, x: Drain, p: seq<Batch>, p': seq<Batch>)
    requires d < |c.drains| && Claimed(c.drains[d]) + p == Claimed(x) + p'
    requires Named(c, p)
    ensures Named(WithDrain(c, d, x), p')
  {
    var was, c' := c.drains[d], WithDrain(c, d, x);
    var l, r := DrainUpdate(c.drains, d, x);
    forall b | b in Claimed(x) + p' ensures Proper(c', b) {
      assert b in Claimed(was) + p;
      assert Proper(c, b);
    }
    forall b | b in Live(c') ensures Proper(c', b) {
      if b in Claimed(x) {
        assert b in Claimed(x) + p';
      } else {
        assert b in Live(c);
        assert Proper(c, b);
      }
    }
    forall b | b in p' ensures Proper(c', b) {
      assert b in Claimed(x) + p';
    }
  }

  lemma Move(cfg: Config, c: Client, d: nat, x: Drain, p: seq<Batch>, p': seq<Batch>, busy: nat, busy': nat)
    requires d < |c.drains| && Claimed(c.drains[d]) + p == Claimed(x) + p'
    requires Periodic(c.drains[d]) + busy == Periodic(x) + busy'
    requires Balanced(cfg, c, p, busy)
    ensures Balanced(cfg, WithDrain(c, d, x), p', busy')
  {
    MoveAccounted(c, d, x, p, p');
    MoveUnique(c, d, x, p, p');
    MoveNamed(c, d, x, p, p');
    var l, r := DrainUpdate(c.drains, d, x);
  }

  // ----- forming an event batch -----

  lemma {:induction false} IdsBelow(c: Client, bs: seq<Batch>)
    requires forall b :: b in bs ==> Proper(c, b)
    ensures forall id :: id in EventIds(bs) ==> id < c.nextBatch
  {
    if bs != [] {
      IdsBelow(c, bs[1..]);
      assert Proper(c, bs[0]);
    }
  }

  lemma FormedAccounted(c: Client, k: nat)
    requires k <= |c.events| && Accounted(c, [])
    ensures Accounted(EventsFormed(c, k), [EventBatch(c.nextBatch, c.events[..k])])
  {
    SliceSplits(c.events, k);
    Single(EventBatch(c.nextBatch, c.events[..k]));
  }

  lemma FormedUnique(c: Client, k: nat)
    requires k <= |c.events| && Named(c, []) && IdsUnique(c, [])
    ensures IdsUnique(EventsFormed(c, k), [EventBatch(c.nextBatch, c.events[..k])])
  {
    var batch := EventBatch(c.nextBatch, c.events[..k]);
    IdsBelow(c, Live(c));
    Single(batch);
    EventIdsAppend([batch], Live(c));
    assert [] + Live(c) == Live(c);
    assert c.nextBatch !in EventIds(Live(c));
    DistinctAppend([c.nextBatch], EventIds(Live(c)));
  }

  lemma FormedNamed(c: Client, k: nat)
    requires k <= |c.events| && Named(c, []) && Distinct(c.events)
    ensures Named(EventsFormed(c, k), [EventBatch(c.nextBatch, c.events[..k])])
  {
    var c' := EventsFormed(c, k);
    SliceSplits(c.events, k);
    forall x | x in c'.events ensures x.Event? && x !in c'.ledger.batchOf {
      assert x in c.events;
      assert multiset(c.events)[x] <= 1;
      assert x in multiset(c.events[k..]);
    }
    forall b | b in Live(c') ensures Proper(c', b) {
      assert Proper(c, b);
      assert forall x :: x in c.events[..k] ==> x in c.events;
    }
  }

  lemma EventsCaptured(c: Client)
    requires Accounted(c, []) && Numbered(c)
    ensures Distinct(c.events) && forall x :: x in c.events ==> x in c.ledger.captured
  {
    forall x ensures multiset(c.events)[x] <= c.ledger.captured[x] <= 1 {
      assert c.ledger.captured[x] == HeldCount(c, x) + multiset(Flat([]))[x] + GoneCount(c.ledger, x);
      assert x in c.ledger.captured || c.ledger.captured[x] == 0;
    }
    assert forall x :: x in c.events ==> x in multiset(c.events);
  }

  lemma FormedBalanced(cfg: Config, c: Client, k: nat, busy: nat)
    requires k <= |c.events| && Balanced(cfg, c, [], busy)
    ensures Balanced(cfg, EventsFormed(c, k), [EventBatch(c.nextBatch, c.events[..k])], busy)
  {
    EventsCaptured(c);
    FormedAccounted(c, k);
    FormedUnique(c, k);
    FormedNamed(c, k);
  }

  // ----- forming an entity batch -----

  lemma EntitiesAccounted(c: Client, k: nat)
    requires k <= |c.entities| && Accounted(c, [])
    ensures Accounted(EntitiesFormed(c, k), [EntityBatch(c.entities[..k])])
  {
    SliceSplits(c.entities, k);
    Single(EntityBatch(c.entities[..k]));
  }

  lemma EntitiesUnique(c: Client, k: nat)
    requires k <= |c.entities| && IdsUnique(c, [])
    ensures IdsUnique(EntitiesFormed(c, k), [EntityBatch(c.entities[..k])])
  {
    var batch := EntityBatch(c.entities[..k]);
    Single(batch);
    EventIdsAppend([batch], Live(c));
    assert [] + Live(c) == Live(c);
  }

  lemma EntitiesNamed(c: Client, k: nat)
    requires k <= |c.entities| && Named(c, [])
    ensures Named(EntitiesFormed(c, k), [EntityBatch(c.entities[..k])])
  {
    forall b | b in Live(c) ensures Proper(EntitiesFormed(c, k), b) {
      assert Proper(c, b);
    }
  }

  // ----- the three loops of a drain -----

  lemma SendEventsKeeps(cfg: Config, c: Client, d: nat, keepalive: bool, k: nat)
    requires d < |c.drains| && c.drains[d].Finished? && Balanced(cfg, c, [], Busy(keepalive)) && k <= |c.events|
    ensures Sound(cfg, WithDrain(EventsFormed(c, k), d, Awaiting(keepalive, SendingEvents, EventBatch(c.nextBatch, c.events[..k]))))
  {
    var batch := EventBatch(c.nextBatch, c.events[..k]);
    FormedBalanced(cfg, c, k, Busy(keepalive));
    var formed := EventsFormed(c, k);
    assert formed.drains == c.drains;
    Move(cfg, formed, d, Awaiting(keepalive, SendingEvents, batch), [batch], [], Busy(keepalive), 0);
  }

  lemma StartEventsKeeps(cfg: Config, c: Client, d: nat, keepalive: bool)
    requires d < |c.drains| && c.drains[d].Finished? && Balanced(cfg, c, [], Busy(keepalive))
    ensures Sound(cfg, StartEvents(cfg, c, d, keepalive))
  {
    if c.events == [] {
      Move(cfg, c, d, if keepalive then Finished else Returning, [], [], Busy(keepalive), 0);
    } else {
      SendEventsKeeps(cfg, c, d, keepalive, Spliced(|c.events|, BatchCap(cfg, keepalive)));
    }
  }

  lemma StartEntitiesKeeps(cfg: Config, c: Client, d: nat, keepalive: bool)
    requires d < |c.drains| && c.drains[d].Finished? && Balanced(cfg, c, [], Busy(keepalive))
    ensures Sound(cfg, StartEntities(cfg, c, d, keepalive))
  {
    if c.entities == [] {
      StartEventsKeeps(cfg, c, d, keepalive);
    } else {
      var k := Spliced(|c.entities|, BatchCap(cfg, keepalive));
      var batch := EntityBatch(c.entities[..k]);
      EntitiesAccounted(c, k);
      EntitiesUnique(c, k);
      EntitiesNamed(c, k);
      Move(cfg, EntitiesFormed(c, k), d, Awaiting(keepalive, SendingEntities, batch), [batch], [], Busy(keepalive), 0);
    }
  }

  lemma StartRetriesKeeps(cfg: Config, c: Client, d: nat, keepalive: bool, pending: seq<Batch>)
    requires d < |c.drains| && c.drains[d].Finished? && Balanced(cfg, c, pending, Busy(keepalive))
    ensures Sound(cfg, StartRetries(cfg, c, d, keepalive, pending))
  {
    if pending == [] {
      StartEntitiesKeeps(cfg, c, d, keepalive);
    } else {
      var x := Awaiting(keepalive, Retrying(pending[1..]), pending[0]);
      assert Claimed(x) == pending;
      Move(cfg, c, d, x, pending, [], Busy(keepalive), 0);
    }
  }

  lemma ResumeKeeps(cfg: Config, c: Client, d: nat, keepalive: bool, phase: Phase)
    requires d < |c.drains| && c.drains[d].Finished?
    requires Balanced(cfg, c, if phase.Retrying? then phase.rest else [], Busy(keepalive))
    ensures Sound(cfg, Resume(cfg, c, d, keepalive, phase))
  {
    match phase
    case Retrying(rest) => StartRetriesKeeps(cfg, c, d, keepalive, rest);
    case SendingEntities => StartEntitiesKeeps(cfg, c, d, keepalive);
    case SendingEvents => StartEventsKeeps(cfg, c, d, keepalive);
  }

  // ----- flush -----

  lemma ClaimedSnoc(ds: seq<Drain>)
    ensures AllClaimed(ds + [Finished]) == AllClaimed(ds)
    ensures PeriodicCount(ds + [Finished]) == PeriodicCount(ds)
  {
    var all := ds + [Finished];
    ClaimedAround(all, |ds|);
    assert all[..|ds|] == ds && all[|ds| + 1..] == [];
  }

  lemma FlushUnique(c: Client, keepalive: bool)
    requires IdsUnique(c, [])
    ensures IdsUnique(FlushStarted(c, keepalive), c.retries)
  {
    hide EventIds, Distinct, AllClaimed;
    ClaimedSnoc(c.drains);
    assert c.retries + Live(FlushStarted(c, keepalive)) == [] + Live(c);
  }

  lemma FlushNamed(c: Client, keepalive: bool)
    requires Named(c, [])
    ensures Named(FlushStarted(c, keepalive), c.retries)
  {
    ClaimedSnoc(c.drains);
    forall b | b in Live(c) ensures Proper(FlushStarted(c, keepalive), b) {
      assert Proper(c, b);
    }
  }

  lemma FlushStartedBalanced(cfg: Config, c: Client, keepalive: bool)
    requires Sound(cfg, c) && (keepalive || !c.flushing)
    ensures Balanced(cfg, FlushStarted(c, keepalive), c.retries, Busy(keepalive))
  {
    ClaimedSnoc(c.drains);
    FlushUnique(c, keepalive);
    FlushNamed(c, keepalive);
    assert Accounted(FlushStarted(c, keepalive), c.retries);
  }

  lemma FlushKeeps(cfg: Config, c: Client, keepalive: bool)
    requires Sound(cfg, c)
    ensures Sound(cfg, Flush(cfg, c, keepalive))
  {
    if keepalive || !c.flushing {
      FlushStartedBalanced(cfg, c, keepalive);
      StartRetriesKeeps(cfg, FlushStarted(c, keepalive), |c.drains|, keepalive, c.retries);
    }
  }

  // ----- capture and identify -----

  /** What queueing an event does to the queue and the ledger; everything else stays. */
  lemma EventParts(cfg: Config, c: Client, item: Item) returns (k: nat)
    ensures var c', queued := EventQueued(cfg, c, item), c.events + [item];
            && k <= |queued| && c'.events == queued[k..]
            && c'.ledger.captured == c.ledger.captured + multiset{item}
            && c'.ledger.evicted == c.ledger.evicted + multiset(queued[..k])
            && c' == c.(events := c'.events, nextSerial := c.nextSerial + 1,
                        ledger := c.ledger.(captured := c'.ledger.captured, evicted := c'.ledger.evicted))
  {
    var queued := c.events + [item];
    k := Spliced(|queued|, if |queued| > cfg.maxQueue then |queued| - cfg.maxQueue else 0);
  }

  lemma EventAccounted(cfg: Config, c: Client, item: Item)
    requires Accounted(c, [])
    ensures Accounted(EventQueued(cfg, c, item), [])
  {
    hide EventQueued, Flat, AllClaimed;
    var k := EventParts(cfg, c, item);
    var queued := c.events + [item];
    SliceSplits(queued, k);
    var c' := EventQueued(cfg, c, item);
    forall x ensures c'.ledger.captured[x] == HeldCount(c', x) + multiset(Flat([]))[x] + GoneCount(c'.ledger, x) {
      assert multiset(queued)[x] == multiset(c.events)[x] + multiset{item}[x];
      assert multiset(queued)[x] == multiset(queued[..k])[x] + multiset(queued[k..])[x];
      assert c.ledger.captured[x] == HeldCount(c, x) + multiset(Flat([]))[x] + GoneCount(c.ledger, x);
    }
  }

  lemma EventNamed(cfg: Config, c: Client, item: Item)
    requires Named(c, []) && item.Event? && item !in c.ledger.batchOf
    ensures Named(EventQueued(cfg, c, item), [])
  {
    forall b | b in Live(c) ensures Proper(EventQueued(cfg, c, item), b) {
      assert Proper(c, b);
    }
  }

  /** A new serial number: the item was never captured before. */
  lemma NumberedNew(c: Client, c': Client, item: Item)
    requires Numbered(c) && item.serial == c.nextSerial && c'.nextSerial == c.nextSerial + 1
    requires c'.ledger.captured == c.ledger.captured + multiset{item} && c'.ledger.batchOf == c.ledger.batchOf
    ensures item !in c.ledger.batchOf && Numbered(c')
  {
    assert item !in c.ledger.captured;
  }

  lemma SameUnique(c: Client, c': Client)
    requires IdsUnique(c, []) && c'.retries == c.retries && c'.drains == c.drains
    ensures IdsUnique(c', [])
  {
  }

  lemma EventKeeps(cfg: Config, c: Client, name: string, actor: string)
    requires Sound(cfg, c)
    ensures Sound(cfg, EventQueued(cfg, c, Event(c.nextSerial, name, actor)))
  {
    var item := Event(c.nextSerial, name, actor);
    var c' := EventQueued(cfg, c, item);
    EventAccounted(cfg, c, item);
    NumberedNew(c, c', item);
    EventNamed(cfg, c, item);
    SameUnique(c, c');
    hide Accounted, Numbered, Named, IdsUnique, PeriodicCount;
  }

  lemma CaptureKeeps(cfg: Config, c: Client, name: string, actor: string)
    requires Sound(cfg, c)
    ensures Sound(cfg, Capture(cfg, c, name, actor))
  {
    hide Sound, EventQueued, Flush;
    EventKeeps(cfg, c, name, actor);
    FlushKeeps(cfg, EventQueued(cfg, c, Event(c.nextSerial, name, actor)), false);
  }

  lemma EntityAccounted(c: Client, item: Item)
    requires Accounted(c, [])
    ensures Accounted(EntityQueued(c, item), [])
  {
    hide Flat, AllClaimed;
    var c' := EntityQueued(c, item);
    forall x ensures c'.ledger.captured[x] == HeldCount(c', x) + multiset(Flat([]))[x] + GoneCount(c'.ledger, x) {
      assert multiset(c'.entities)[x] == multiset(c.entities)[x] + multiset{item}[x];
      assert c.ledger.captured[x] == HeldCount(c, x) + multiset(Flat([]))[x] + GoneCount(c.ledger, x);
    }
  }

  lemma EntityNamed(c: Client, item: Item)
    requires Named(c, []) && item.Entity?
    ensures Named(EntityQueued(c, item), [])
  {
    forall b | b in Live(c) ensures Proper(EntityQueued(c, item), b) {
      assert Proper(c, b);
    }
  }

  lemma EntityKeeps(cfg: Config, c: Client, kind: string, key: string)
    requires Sound(cfg, c)
    ensures Sound(cfg, EntityQueued(c, Entity(c.nextSerial, kind, key)))
  {
    var item := Entity(c.nextSerial, kind, key);
    var c' := EntityQueued(c, item);
    EntityAccounted(c, item);
    NumberedNew(c, c', item);
    EntityNamed(c, item);
    SameUnique(c, c');
    hide Accounted, Numbered, Named, IdsUnique, PeriodicCount;
  }

  lemma IdentifyKeeps(cfg: Config, c: Client, kind: string, key: string)
    requires Sound(cfg, c)
    ensures Sound(cfg, Identify(cfg, c, kind, key))
  {
    hide Sound, EntityQueued, Flush;
    EntityKeeps(cfg, c, kind, key);
    FlushKeeps(cfg, EntityQueued(c, Entity(c.nextSerial, kind, key)), false);
  }

  lemma FinishFlushKeeps(cfg: Config, c: Client, d: nat)
    requires d < |c.drains| && Sound(cfg, c)
    ensures Sound(cfg, FinishFlush(c, d))
  {
    if c.drains[d].Returning? {
      var ended := WithDrain(c, d, Finished);
      Move(cfg, c, d, Finished, [], [], 0, 1);
      var c' := ended.(flushing := false);
      forall b | b in Live(c') ensures Proper(c', b) {
        assert Proper(ended, b);
      }
    }
  }

  // ----- settling a request -----

  lemma RequeueAccounted(c: Client, b: Batch, rest: seq<Batch>)
    requires Accounted(c, [b] + rest)
    ensures Accounted(Requeue(c, b), rest)
  {
    hide Flat, AllClaimed;
    var queued := c.retries + [b];
    var k := Spliced(|queued|, |queued| - MAX_RETRY_BATCHES);
    assert queued == queued[..k] + queued[k..];
    FlatSum(queued[..k], queued[k..]);
    FlatSum(c.retries, [b]);
    FlatSum([b], rest);
    var c' := Requeue(c, b);
    forall x ensures c'.ledger.captured[x] == HeldCount(c', x) + multiset(Flat(rest))[x] + GoneCount(c'.ledger, x) {
      assert c.ledger.captured[x] == HeldCount(c, x) + multiset(Flat([b] + rest))[x] + GoneCount(c.ledger, x);
      assert (multiset(Flat(queued[..k])) + multiset(Flat(queued[k..])))[x]
          == (multiset(Flat(c.retries)) + multiset(Flat([b])))[x];
    }
  }

  lemma RequeueUnique(c: Client, b: Batch, rest: seq<Batch>)
    requires IdsUnique(c, [b] + rest)
    ensures IdsUnique(Requeue(c, b), rest)
  {
    hide EventIds, Live, AllClaimed;
    var queued := c.retries + [b];
    var k := Spliced(|queued|, |queued| - MAX_RETRY_BATCHES);
    assert queued == queued[..k] + queued[k..];
    IdsSum(queued[..k], queued[k..]);
    IdsSum(c.retries, [b]);
    IdsSum([b], rest);
    AllIds(c, [b] + rest);
    AllIds(Requeue(c, b), rest);
    forall id ensures multiset(EventIds(rest + Live(Requeue(c, b))))[id] <= multiset(EventIds(([b] + rest) + Live(c)))[id] {
      assert (multiset(EventIds(queued[..k])) + multiset(EventIds(queued[k..])))[id]
          == (multiset(EventIds(c.retries)) + multiset(EventIds([b])))[id];
    }
  }

  lemma RequeueNamed(c: Client, b: Batch, rest: seq<Batch>)
    requires Named(c, [b] + rest)
    ensures Named(Requeue(c, b), rest)
  {
    forall x | x in Live(Requeue(c, b)) + rest ensures Proper(Requeue(c, b), x) {
      assert x in Live(c) || x in [b] + rest;
      assert Proper(c, x);
    }
  }

  lemma GoneAccounted(c: Client, b: Batch, rest: seq<Batch>, outcome: Outcome)
    requires Accounted(c, [b] + rest) && outcome != Retry
    ensures Accounted(Recorded(c, b, outcome), rest)
  {
    FlatSum([b], rest);
    Single(b);
    var c' := Recorded(c, b, outcome);
    forall x ensures c'.ledger.captured[x] == HeldCount(c', x) + multiset(Flat(rest))[x] + GoneCount(c'.ledger, x) {
      assert c.ledger.captured[x] == HeldCount(c, x) + multiset(Flat([b] + rest))[x] + GoneCount(c.ledger, x);
    }
  }

  lemma GoneUnique(c: Client, b: Batch, rest: seq<Batch>, outcome: Outcome)
    requires IdsUnique(c, [b] + rest) && outcome != Retry
    ensures IdsUnique(Recorded(c, b, outcome), rest)
  {
    hide EventIds, AllClaimed;
    var c' := Recorded(c, b, outcome);
    assert Live(c') == Live(c);
    hide Live;
    assert ([b] + rest) + Live(c) == [b] + (rest + Live(c'));
    IdsSum([b], rest + Live(c'));
    forall id ensures multiset(EventIds(rest + Live(c')))[id] <= multiset(EventIds(([b] + rest) + Live(c)))[id] {
    }
  }

  lemma GoneNamed(c: Client, b: Batch, rest: seq<Batch>, outcome: Outcome)
    requires Named(c, [b] + rest) && outcome != Retry
    ensures Named(Recorded(c, b, outcome), rest)
  {
    hide AllClaimed;
    forall x | x in Live(c) + rest ensures Proper(Recorded(c, b, outcome), x) {
      assert x in Live(c) || x in [b] + rest;
      assert Proper(c, x);
    }
  }

  lemma RecordedBalanced(cfg: Config, c: Client, b: Batch, rest: seq<Batch>, outcome: Outcome, busy: nat)
    requires Balanced(cfg, c, [b] + rest, busy)
    ensures Balanced(cfg, Recorded(c, b, outcome), rest, busy)
  {
    hide Accounted, Named, IdsUnique, PeriodicCount, Flat;
    if outcome == Retry {
      RequeueAccounted(c, b, rest);
      RequeueUnique(c, b, rest);
      RequeueNamed(c, b, rest);
    } else {
      GoneAccounted(c, b, rest, outcome);
      GoneUnique(c, b, rest, outcome);
      GoneNamed(c, b, rest, outcome);
    }
  }

  lemma SettleKeeps(cfg: Config, c: Client, d: nat, outcome: Outcome)
    requires d < |c.drains| && c.drains[d].Awaiting? && Sound(cfg, c)
    ensures Sound(cfg, Settle(cfg, c, d, outcome))
  {
    var Awaiting(keepalive, phase, b) := c.drains[d];
    var rest := if phase.Retrying? then phase.rest else [];
    assert Claimed(c.drains[d]) == [b] + rest;
    Move(cfg, c, d, Finished, [], [b] + rest, 0, Busy(keepalive));
    RecordedBalanced(cfg, WithDrain(c, d, Finished), b, rest, outcome, Busy(keepalive));
    ResumeKeeps(cfg, Recorded(WithDrain(c, d, Finished), b, outcome), d, keepalive, phase);
  }

  // ----- discarding -----

  lemma {:induction false} DiscardSplits(bs: seq<Batch>, selected: Item -> bool)
    ensures forall x :: multiset(Flat(DiscardBatches(bs, selected)))[x] + multiset(DiscardedItems(bs, selected))[x]
                     == multiset(Flat(bs))[x]
  {
    if bs != [] {
      DiscardSplits(bs[1..], selected);
      if bs[0].EventBatch? {
        SelectReject(bs[0].items, selected);
        var kept := Reject(bs[0].items, selected);
        FlatSum(if |kept| > 0 then [EventBatch(bs[0].id, kept)] else [], DiscardBatches(bs[1..], selected));
        Single(EventBatch(bs[0].id, kept));
      } else {
        FlatSum([bs[0]], DiscardBatches(bs[1..], selected));
        Single(bs[0]);
      }
    }
  }

  /** What survives in the retry queue is a batch from before, or the same id with fewer events. */
  ghost predicate Shrunk(b: Batch, from: Batch) {
    b == from || (b.EventBatch? && from.EventBatch? && b.id == from.id && forall x :: x in b.items ==> x in from.items)
  }

  lemma {:induction false} DiscardShrinks(bs: seq<Batch>, selected: Item -> bool)
    ensures forall b :: b in DiscardBatches(bs, selected) ==> exists o :: o in bs && Shrunk(b, o)
    ensures multiset(EventIds(DiscardBatches(bs, selected))) <= multiset(EventIds(bs))
  {
    if bs != [] {
      var rest := DiscardBatches(bs[1..], selected);
      DiscardShrinks(bs[1..], selected);
      var head := if bs[0].EntityBatch? then [bs[0]]
                  else if |Reject(bs[0].items, selected)| > 0 then [EventBatch(bs[0].id, Reject(bs[0].items, selected))]
                  else [];
      assert DiscardBatches(bs, selected) == head + rest;
      IdsSum(head, rest);
      forall b | b in head + rest ensures exists o :: o in bs && Shrunk(b, o) {
        if b in head {
          assert bs[0] in bs && Shrunk(b, bs[0]);
        } else {
          var o :| o in bs[1..] && Shrunk(b, o);
          assert o in bs;
        }
      }
    }
  }

  lemma DiscardAccounted(c: Client, selected: Item -> bool)
    requires Accounted(c, [])
    ensures Accounted(Discard(c, selected), [])
  {
    SelectReject(c.events, selected);
    DiscardSplits(c.retries, selected);
    var c' := Discard(c, selected);
    forall x ensures c'.ledger.captured[x] == HeldCount(c', x) + multiset(Flat([]))[x] + GoneCount(c'.ledger, x) {
      assert c.ledger.captured[x] == HeldCount(c, x) + multiset(Flat([]))[x] + GoneCount(c.ledger, x);
      assert (multiset(Select(c.events, selected)) + multiset(Reject(c.events, selected)))[x] == multiset(c.events)[x];
    }
  }

  lemma DiscardUnique(c: Client, selected: Item -> bool)
    requires IdsUnique(c, [])
    ensures IdsUnique(Discard(c, selected), [])
  {
    DiscardShrinks(c.retries, selected);
    AllIds(c, []);
    AllIds(Discard(c, selected), []);
    forall id ensures multiset(EventIds([] + Live(Discard(c, selected))))[id] <= multiset(EventIds([] + Live(c)))[id] {
      assert multiset(EventIds(DiscardBatches(c.retries, selected)))[id] <= multiset(EventIds(c.retries))[id];
    }
  }

  lemma DiscardNamed(c: Client, selected: Item -> bool)
    requires Named(c, [])
    ensures Named(Discard(c, selected), [])
  {
    DiscardShrinks(c.retries, selected);
    forall b | b in Live(Discard(c, selected)) ensures Proper(Discard(c, selected), b) {
      if b in DiscardBatches(c.retries, selected) {
        var o :| o in c.retries && Shrunk(b, o);
        assert o in Live(c) && Proper(c, o);
      } else {
        assert Proper(c, b);
      }
    }
  }

  lemma DiscardLengths(c: Client, selected: Item -> bool)
    ensures |Discard(c, selected).events| <= |c.events| && |Discard(c, selected).retries| <= |c.retries|
  {
    SelectReject(c.events, selected);
    assert |multiset(Reject(c.events, selected))| <= |multiset(c.events)|;
    DiscardFewer(c.retries, selected);
  }

  lemma DiscardFewer(bs: seq<Batch>, selected: Item -> bool)
    ensures |DiscardBatches(bs, selected)| <= |bs|
  {
  }

  lemma DiscardKeeps(cfg: Config, c: Client, selected: Item -> bool)
    requires Sound(cfg, c)
    ensures Sound(cfg, Discard(c, selected))
  {
    DiscardAccounted(c, selected);
    DiscardUnique(c, selected);
    DiscardNamed(c, selected);
    DiscardLengths(c, selected);
  }

  /** Discarding empties both queues of the selected events, and never reaches what a drain has claimed. */
  lemma DiscardReach(c: Client, selected: Item -> bool)
    ensures var c' := Discard(c, selected);
            && (forall x :: x in c'.events <==> x in c.events && !selected(x))
            && (forall b, x :: b in c'.retries && b.EventBatch? && x in b.items ==> !selected(x))
            && c'.drains == c.drains && c'.entities == c.entities
  {
    DiscardClears(c.retries, selected);
  }

  lemma {:induction false} DiscardClears(bs: seq<Batch>, selected: Item -> bool)
    ensures forall b, x :: b in DiscardBatches(bs, selected) && b.EventBatch? && x in b.items ==> !selected(x)
  {
    if bs != [] {
      DiscardClears(bs[1..], selected);
    }
  }
}
