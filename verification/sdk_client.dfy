/**
 * The batching and retrying client of sdk/src/index.ts.
 *
 * A synchronous piece of JavaScript between two `await`s is one step. A drain that
 * waits for a response is an `Awaiting` value; any other step may run before it is settled.
 */
module SdkClient {
  import opened Sequences

  const KEEPALIVE_BATCH := 25
  const MAX_RETRY_BATCHES := 100
  const MAX_BATCH_SIZE := 500

  /** One captured event or one entity upsert; `serial` is its place in the order of capture. */
  datatype Item =
    | Event(serial: nat, name: string, actor: string)
    | Entity(serial: nat, kind: string, key: string)

  datatype Batch =
    | EventBatch(id: nat, items: seq<Item>)
    | EntityBatch(items: seq<Item>)

  /** What a drain does after the request it waits for. */
  datatype Phase = Retrying(rest: seq<Batch>) | SendingEntities | SendingEvents

  datatype Drain =
    | Finished
    | Returning // the drain is over, the flag of the periodic flush is not reset yet
    | Awaiting(keepalive: bool, phase: Phase, sending: Batch)

  datatype Outcome = Ok | Drop | Retry

  datatype Config = Config(maxBatchSize: int, maxQueue: int)

  /** Where every item that ever left the client went, and the batch id each event was given. */
  datatype Ledger = Ledger(
    captured: multiset<Item>,
    accepted: multiset<Item>,
    rejected: multiset<Item>,
    evicted: multiset<Item>,
    discarded: multiset<Item>,
    batchOf: map<Item, nat>)

  datatype Client = Client(
    events: seq<Item>,
    entities: seq<Item>,
    retries: seq<Batch>,
    flushing: bool,
    drains: seq<Drain>,
    nextBatch: nat,
    nextSerial: nat,
    ledger: Ledger)

  const FRESH_LEDGER := Ledger(multiset{}, multiset{}, multiset{}, multiset{}, multiset{}, map[])
  const FRESH_CLIENT := Client([], [], [], false, [], 0, 0, FRESH_LEDGER)

  // ---------------------------------------------------------------------------
  // Steps
  // ---------------------------------------------------------------------------

  /** How many elements `splice(0, count)` removes. */
  function Spliced(length: nat, count: int): (k: nat)
    ensures k <= length
  {
    if count <= 0 then 0 else if count < length then count else length
  }

  function BatchCap(cfg: Config, keepalive: bool): int {
    if keepalive then KEEPALIVE_BATCH else cfg.maxBatchSize
  }

  function WithDrain(c: Client, d: nat, x: Drain): Client
    requires d < |c.drains|
  {
    c.(drains := c.drains[d := x])
  }

  /** Forming an event batch: the oldest `k` events leave the queue under a new id. */
  function EventsFormed(c: Client, k: nat): Client
    requires k <= |c.events|
  {
    c.(events := c.events[k..],
       nextBatch := c.nextBatch + 1,
       ledger := c.ledger.(batchOf := c.ledger.batchOf + map x | x in c.events[..k] :: c.nextBatch))
  }

  function EntitiesFormed(c: Client, k: nat): Client
    requires k <= |c.entities|
  {
    c.(entities := c.entities[k..])
  }

  /** The loop over `events`: form a batch under a new id, or end the drain. */
  function StartEvents(cfg: Config, c: Client, d: nat, keepalive: bool): Client
    requires d < |c.drains|
  {
    if c.events == [] then WithDrain(c, d, if keepalive then Finished else Returning)
    else
      var k := Spliced(|c.events|, BatchCap(cfg, keepalive));
      WithDrain(EventsFormed(c, k), d, Awaiting(keepalive, SendingEvents, EventBatch(c.nextBatch, c.events[..k])))
  }

  function StartEntities(cfg: Config, c: Client, d: nat, keepalive: bool): Client
    requires d < |c.drains|
  {
    if c.entities == [] then StartEvents(cfg, c, d, keepalive)
    else
      var k := Spliced(|c.entities|, BatchCap(cfg, keepalive));
      WithDrain(EntitiesFormed(c, k), d, Awaiting(keepalive, SendingEntities, EntityBatch(c.entities[..k])))
  }

  function StartRetries(cfg: Config, c: Client, d: nat, keepalive: bool, pending: seq<Batch>): Client
    requires d < |c.drains|
  {
    if pending == [] then StartEntities(cfg, c, d, keepalive)
    else WithDrain(c, d, Awaiting(keepalive, Retrying(pending[1..]), pending[0]))
  }

  function Resume(cfg: Config, c: Client, d: nat, keepalive: bool, phase: Phase): Client
    requires d < |c.drains|
  {
    match phase
    case Retrying(rest) => StartRetries(cfg, c, d, keepalive, rest)
    case SendingEntities => StartEntities(cfg, c, d, keepalive)
    case SendingEvents => StartEvents(cfg, c, d, keepalive)
  }

  /** A flush that goes ahead takes every retry batch with it. */
  function FlushStarted(c: Client, keepalive: bool): Client {
    c.(drains := c.drains + [Finished], retries := [], flushing := c.flushing || !keepalive)
  }

  function Flush(cfg: Config, c: Client, keepalive: bool): Client {
    if !keepalive && c.flushing then c
    else StartRetries(cfg, FlushStarted(c, keepalive), |c.drains|, keepalive, c.retries)
  }

  /** `push`, then drop the oldest above the cap. */
  function EventQueued(cfg: Config, c: Client, item: Item): Client {
    var queued := c.events + [item];
    var k := Spliced(|queued|, if |queued| > cfg.maxQueue then |queued| - cfg.maxQueue else 0);
    c.(events := queued[k..],
       nextSerial := c.nextSerial + 1,
       ledger := c.ledger.(captured := c.ledger.captured + multiset{item},
                           evicted := c.ledger.evicted + multiset(queued[..k])))
  }

  /** Queue an event; a full batch flushes at once. */
  function Capture(cfg: Config, c: Client, name: string, actor: string): Client {
    var c' := EventQueued(cfg, c, Event(c.nextSerial, name, actor));
    if |c'.events| >= cfg.maxBatchSize then Flush(cfg, c', false) else c'
  }

  function EntityQueued(c: Client, item: Item): Client {
    c.(entities := c.entities + [item],
       nextSerial := c.nextSerial + 1,
       ledger := c.ledger.(captured := c.ledger.captured + multiset{item}))
  }

  function Identify(cfg: Config, c: Client, kind: string, key: string): Client {
    var c' := EntityQueued(c, Entity(c.nextSerial, kind, key));
    if |c'.entities| >= cfg.maxBatchSize then Flush(cfg, c', false) else c'
  }

  /** Discarding inside the retry batches; a batch with no surviving event goes. */
  function DiscardBatches(bs: seq<Batch>, selected: Item -> bool): seq<Batch> {
    if bs == [] then []
    else if bs[0].EntityBatch? then [bs[0]] + DiscardBatches(bs[1..], selected)
    else
      var kept := Reject(bs[0].items, selected);
      (if |kept| > 0 then [EventBatch(bs[0].id, kept)] else []) + DiscardBatches(bs[1..], selected)
  }

  function DiscardedItems(bs: seq<Batch>, selected: Item -> bool): seq<Item> {
    if bs == [] then []
    else (if bs[0].EventBatch? then Select(bs[0].items, selected) else []) + DiscardedItems(bs[1..], selected)
  }

  function Discard(c: Client, selected: Item -> bool): Client {
    c.(events := Reject(c.events, selected),
       retries := DiscardBatches(c.retries, selected),
       ledger := c.ledger.(discarded := c.ledger.discarded
         + multiset(Select(c.events, selected))
         + multiset(DiscardedItems(c.retries, selected))))
  }

  function Requeue(c: Client, b: Batch): Client {
    var queued := c.retries + [b];
    var k := Spliced(|queued|, |queued| - MAX_RETRY_BATCHES);
    c.(retries := queued[k..],
       ledger := c.ledger.(evicted := c.ledger.evicted + multiset(Flat(queued[..k]))))
  }

  /** What the outcome of a request does with its batch. */
  function Recorded(c: Client, b: Batch, outcome: Outcome): Client {
    match outcome
    case Ok => c.(ledger := c.ledger.(accepted := c.ledger.accepted + multiset(b.items)))
    case Drop => c.(ledger := c.ledger.(rejected := c.ledger.rejected + multiset(b.items)))
    case Retry => Requeue(c, b)
  }

  /** The request that drain `d` waits for is over; the drain goes on to its next request. */
  function Settle(cfg: Config, c: Client, d: nat, outcome: Outcome): Client
    requires d < |c.drains| && c.drains[d].Awaiting?
  {
    var Awaiting(keepalive, phase, b) := c.drains[d];
    Resume(cfg, Recorded(WithDrain(c, d, Finished), b, outcome), d, keepalive, phase)
  }

  /** The `finally` of the periodic flush. */
  function FinishFlush(c: Client, d: nat): Client
    requires d < |c.drains|
  {
    if c.drains[d].Returning? then c.(drains := c.drains[d := Finished], flushing := false) else c
  }

  // ---------------------------------------------------------------------------
  // What the state holds
  // ---------------------------------------------------------------------------

  function Flat(bs: seq<Batch>): seq<Item> {
    if bs == [] then [] else bs[0].items + Flat(bs[1..])
  }

  function IdOf(b: Batch): seq<nat> {
    if b.EventBatch? then [b.id] else []
  }

  function EventIds(bs: seq<Batch>): seq<nat> {
    if bs == [] then [] else IdOf(bs[0]) + EventIds(bs[1..])
  }

  /** The batches a drain has claimed: the one in flight and those it still has to retry. */
  function Claimed(d: Drain): seq<Batch> {
    match d
    case Awaiting(_, Retrying(rest), b) => [b] + rest
    case Awaiting(_, _, b) => [b]
    case _ => []
  }

  function AllClaimed(ds: seq<Drain>): seq<Batch> {
    if ds == [] then [] else Claimed(ds[0]) + AllClaimed(ds[1..])
  }

  /** How often the client still holds an item. */
  function HeldCount(c: Client, x: Item): nat {
    multiset(c.events)[x] + multiset(c.entities)[x] + multiset(Flat(c.retries))[x] + multiset(Flat(AllClaimed(c.drains)))[x]
  }

  /** How often an item left the client, for whatever reason. */
  function GoneCount(l: Ledger, x: Item): nat {
    l.accepted[x] + l.rejected[x] + l.evicted[x] + l.discarded[x]
  }

  /** Every batch the client still holds. */
  function Live(c: Client): seq<Batch> {
    c.retries + AllClaimed(c.drains)
  }

  /** A drain that was started by the periodic flush and still owns its flag. */
  function Periodic(d: Drain): nat {
    if d.Returning? || (d.Awaiting? && !d.keepalive) then 1 else 0
  }

  function PeriodicCount(ds: seq<Drain>): nat {
    if ds == [] then 0 else Periodic(ds[0]) + PeriodicCount(ds[1..])
  }

  // ---------------------------------------------------------------------------
  // How the folds behave
  // ---------------------------------------------------------------------------

  lemma {:induction false} FlatAppend(a: seq<Batch>, b: seq<Batch>)
    ensures Flat(a + b) == Flat(a) + Flat(b)
  {
    if a == [] {
      assert a + b == b;
    } else {
      FlatAppend(a[1..], b);
      assert (a + b)[1..] == a[1..] + b;
      assert a[0].items + (Flat(a[1..]) + Flat(b)) == (a[0].items + Flat(a[1..])) + Flat(b);
    }
  }

  lemma {:induction false} EventIdsAppend(a: seq<Batch>, b: seq<Batch>)
    ensures EventIds(a + b) == EventIds(a) + EventIds(b)
  {
    if a == [] {
      assert a + b == b;
    } else {
      EventIdsAppend(a[1..], b);
      hide IdOf;
      assert (a + b)[1..] == a[1..] + b;
      assert IdOf(a[0]) + (EventIds(a[1..]) + EventIds(b)) == (IdOf(a[0]) + EventIds(a[1..])) + EventIds(b);
    }
  }

  lemma {:induction false} ClaimedAround(ds: seq<Drain>, d: nat)
    requires d < |ds|
    ensures AllClaimed(ds) == AllClaimed(ds[..d]) + Claimed(ds[d]) + AllClaimed(ds[d + 1..])
    ensures PeriodicCount(ds) == PeriodicCount(ds[..d]) + Periodic(ds[d]) + PeriodicCount(ds[d + 1..])
  {
    if d > 0 {
      ClaimedAround(ds[1..], d - 1);
      assert ds[1..][..d - 1] == ds[..d][1..] && ds[1..][d..] == ds[d + 1..];
    }
  }

  /** Replacing one drain exchanges exactly what it claims. */
  lemma DrainUpdate(ds: seq<Drain>, d: nat, x: Drain) returns (l: seq<Batch>, r: seq<Batch>)
    requires d < |ds|
    ensures AllClaimed(ds) == l + Claimed(ds[d]) + r
    ensures AllClaimed(ds[d := x]) == l + Claimed(x) + r
    ensures PeriodicCount(ds[d := x]) + Periodic(ds[d]) == PeriodicCount(ds) + Periodic(x)
  {
    l, r := AllClaimed(ds[..d]), AllClaimed(ds[d + 1..]);
    ClaimedAround(ds, d);
    ClaimedAround(ds[d := x], d);
    assert ds[d := x][..d] == ds[..d] && ds[d := x][d + 1..] == ds[d + 1..];
  }
}
