/** What a drain of the SDK client sends: retries first, then entities, then events, in chunks, oldest first. */
module SdkDrain {
  import opened Sequences
  import opened SdkClient

  // ----- the plan of a drain -----

  function Least(a: int, b: int): int { if a <= b then a else b }

  /** Consecutive pieces of `cap` elements; the last one may be shorter. */
  function Chunks(items: seq<Item>, cap: int): seq<seq<Item>>
    requires cap >= 1
    decreases |items|
  {
    if items == [] then [] else [items[..Least(cap, |items|)]] + Chunks(items[Least(cap, |items|)..], cap)
  }

  function EntityBatches(chunks: seq<seq<Item>>): seq<Batch> {
    if chunks == [] then [] else [EntityBatch(chunks[0])] + EntityBatches(chunks[1..])
  }

  /** Each event batch has the next fresh id. */
  function EventBatches(chunks: seq<seq<Item>>, id: nat): seq<Batch> {
    if chunks == [] then [] else [EventBatch(id, chunks[0])] + EventBatches(chunks[1..], id + 1)
  }

  /** At most 25 items in a request of a page that is going away, else the configured batch size. */
  function Cap(cfg: Config, keepalive: bool): int { if keepalive then 25 else cfg.maxBatchSize }

  function EventPlan(cfg: Config, c: Client, keepalive: bool): seq<Batch>
    requires Cap(cfg, keepalive) >= 1
  {
    EventBatches(Chunks(c.events, Cap(cfg, keepalive)), c.nextBatch)
  }

  function EntityPlan(cfg: Config, c: Client, keepalive: bool): seq<Batch>
    requires Cap(cfg, keepalive) >= 1
  {
    EntityBatches(Chunks(c.entities, Cap(cfg, keepalive)))
  }

  /** All requests of a drain that nothing else disturbs. */
  function Plan(cfg: Config, c: Client, keepalive: bool): seq<Batch>
    requires Cap(cfg, keepalive) >= 1
  {
    c.retries + EntityPlan(cfg, c, keepalive) + EventPlan(cfg, c, keepalive)
  }

  /** What a drain in this phase still has to send after its current request. */
  function Rest(cfg: Config, c: Client, keepalive: bool, phase: Phase): seq<Batch>
    requires Cap(cfg, keepalive) >= 1
  {
    match phase
    case Retrying(rest) => rest + EntityPlan(cfg, c, keepalive) + EventPlan(cfg, c, keepalive)
    case SendingEntities => EntityPlan(cfg, c, keepalive) + EventPlan(cfg, c, keepalive)
    case SendingEvents => EventPlan(cfg, c, keepalive)
  }

  /** The drain goes on exactly as planned: it waits for the next planned request, or it has ended. */
  ghost predicate Follows(cfg: Config, c: Client, d: nat, keepalive: bool, plan: seq<Batch>)
    requires Cap(cfg, keepalive) >= 1 && d < |c.drains|
  {
    if plan == [] then c.drains[d] == (if keepalive then Finished else Returning) && c.events == [] && c.entities == []
    else
      && c.drains[d].Awaiting? && c.drains[d].keepalive == keepalive && c.drains[d].sending == plan[0]
      && Rest(cfg, c, keepalive, c.drains[d].phase) == plan[1..]
      && (c.drains[d].phase.SendingEvents? ==> c.entities == [])
  }

  lemma EventsFollow(cfg: Config, c: Client, d: nat, keepalive: bool)
    requires Cap(cfg, keepalive) >= 1 && d < |c.drains| && c.entities == []
    ensures Follows(cfg, StartEvents(cfg, c, d, keepalive), d, keepalive, EventPlan(cfg, c, keepalive))
  {
  }

  lemma EntitiesFollow(cfg: Config, c: Client, d: nat, keepalive: bool)
    requires Cap(cfg, keepalive) >= 1 && d < |c.drains|
    ensures Follows(cfg, StartEntities(cfg, c, d, keepalive), d, keepalive, EntityPlan(cfg, c, keepalive) + EventPlan(cfg, c, keepalive))
  {
    if c.entities == [] {
      EventsFollow(cfg, c, d, keepalive);
      assert EntityPlan(cfg, c, keepalive) + EventPlan(cfg, c, keepalive) == EventPlan(cfg, c, keepalive);
    } else {
      var r := StartEntities(cfg, c, d, keepalive);
      var plan := EntityPlan(cfg, c, keepalive) + EventPlan(cfg, c, keepalive);
      assert EntityPlan(cfg, c, keepalive) == [r.drains[d].sending] + EntityPlan(cfg, r, keepalive);
      assert plan[1..] == EntityPlan(cfg, r, keepalive) + EventPlan(cfg, r, keepalive);
    }
  }

  lemma RetriesFollow(cfg: Config, c: Client, d: nat, keepalive: bool, pending: seq<Batch>)
    requires Cap(cfg, keepalive) >= 1 && d < |c.drains|
    ensures Follows(cfg, StartRetries(cfg, c, d, keepalive, pending), d, keepalive, Rest(cfg, c, keepalive, Retrying(pending)))
  {
    var plan := Rest(cfg, c, keepalive, Retrying(pending));
    if pending == [] {
      EntitiesFollow(cfg, c, d, keepalive);
      assert plan == EntityPlan(cfg, c, keepalive) + EventPlan(cfg, c, keepalive);
    } else {
      assert plan[1..] == pending[1..] + EntityPlan(cfg, c, keepalive) + EventPlan(cfg, c, keepalive);
    }
  }

  lemma ResumeFollows(cfg: Config, c: Client, d: nat, keepalive: bool, phase: Phase)
    requires Cap(cfg, keepalive) >= 1 && d < |c.drains| && (phase.SendingEvents? ==> c.entities == [])
    ensures Follows(cfg, Resume(cfg, c, d, keepalive, phase), d, keepalive, Rest(cfg, c, keepalive, phase))
  {
    hide Follows;
    match phase
    case Retrying(rest) => RetriesFollow(cfg, c, d, keepalive, rest);
    case SendingEntities => EntitiesFollow(cfg, c, d, keepalive);
    case SendingEvents => EventsFollow(cfg, c, d, keepalive);
  }

  // ----- an undisturbed drain -----

  /** The requests that drain `d` sends when they end like this one after the other, and the client afterwards. */
  function Requests(cfg: Config, c: Client, d: nat, outcomes: seq<Outcome>): (seq<Batch>, Client)
    requires d < |c.drains|
    decreases |outcomes|
  {
    if outcomes == [] || !c.drains[d].Awaiting? then ([], c)
    else
      SettleKeepsDrains(cfg, c, d, outcomes[0]);
      var (sent, end) := Requests(cfg, Settle(cfg, c, d, outcomes[0]), d, outcomes[1..]);
      ([c.drains[d].sending] + sent, end)
  }

  lemma SettleKeepsDrains(cfg: Config, c: Client, d: nat, outcome: Outcome)
    requires d < |c.drains| && c.drains[d].Awaiting?
    ensures |Settle(cfg, c, d, outcome).drains| == |c.drains|
  {
    hide Spliced, Flat;
  }

  /** The batches whose request ended in this way. */
  function Having(bs: seq<Batch>, outcomes: seq<Outcome>, outcome: Outcome): seq<Batch>
    requires |bs| == |outcomes|
  {
    if bs == [] then [] else (if outcomes[0] == outcome then [bs[0]] else []) + Having(bs[1..], outcomes[1..], outcome)
  }

  function Newest(bs: seq<Batch>, n: nat): seq<Batch> {
    if |bs| > n then bs[|bs| - n..] else bs
  }

  lemma NewestTwice(a: seq<Batch>, b: seq<Batch>, n: nat)
    ensures Newest(Newest(a, n) + b, n) == Newest(a + b, n)
  {
  }

  /** What the record of one outcome changes. */
  lemma RecordedIs(c: Client, b: Batch, outcome: Outcome)
    ensures var r := Recorded(c, b, outcome);
            && r.events == c.events && r.entities == c.entities && r.drains == c.drains && r.nextBatch == c.nextBatch
            && r.retries == (if outcome == Retry then Newest(c.retries + [b], 100) else c.retries)
            && r.ledger.accepted == c.ledger.accepted + (if outcome == Ok then multiset(b.items) else multiset{})
            && r.ledger.rejected == c.ledger.rejected + (if outcome == Drop then multiset(b.items) else multiset{})
  {
    hide Flat;
  }

  /** Going on changes nothing of what was recorded. */
  lemma ResumeKeeps(cfg: Config, c: Client, d: nat, keepalive: bool, phase: Phase)
    requires d < |c.drains|
    ensures var r := Resume(cfg, c, d, keepalive, phase);
            && r.retries == c.retries && r.ledger.accepted == c.ledger.accepted && r.ledger.rejected == c.ledger.rejected
            && |r.drains| == |c.drains|
  {
    hide Spliced;
  }

  lemma SettleFollows(cfg: Config, c: Client, d: nat, keepalive: bool, plan: seq<Batch>, outcome: Outcome)
    requires Cap(cfg, keepalive) >= 1 && d < |c.drains| && plan != [] && Follows(cfg, c, d, keepalive, plan)
    ensures var r := Settle(cfg, c, d, outcome);
            && |r.drains| == |c.drains| && Follows(cfg, r, d, keepalive, plan[1..])
            && r.retries == (if outcome == Retry then Newest(c.retries + [plan[0]], 100) else c.retries)
            && r.ledger.accepted == c.ledger.accepted + (if outcome == Ok then multiset(plan[0].items) else multiset{})
            && r.ledger.rejected == c.ledger.rejected + (if outcome == Drop then multiset(plan[0].items) else multiset{})
  {
    var Awaiting(_, phase, b) := c.drains[d];
    var before := WithDrain(c, d, Finished);
    var recorded := Recorded(before, b, outcome);
    RecordedIs(before, b, outcome);
    hide Recorded;
    assert Rest(cfg, recorded, keepalive, phase) == Rest(cfg, c, keepalive, phase);
    ResumeFollows(cfg, recorded, d, keepalive, phase);
    ResumeKeeps(cfg, recorded, d, keepalive, phase);
    hide Resume, Rest, Newest;
  }

  lemma {:induction false} Served(cfg: Config, c: Client, d: nat, keepalive: bool, plan: seq<Batch>, outcomes: seq<Outcome>)
    requires Cap(cfg, keepalive) >= 1 && d < |c.drains| && Follows(cfg, c, d, keepalive, plan) && |outcomes| == |plan|
    ensures var (sent, end) := Requests(cfg, c, d, outcomes);
            sent == plan && |end.drains| == |c.drains| && Follows(cfg, end, d, keepalive, [])
    decreases |plan|
  {
    if plan != [] {
      SettleFollows(cfg, c, d, keepalive, plan, outcomes[0]);
      StillWaits(cfg, c, d, keepalive, plan);
      hide Settle, Follows, Newest;
      Served(cfg, Settle(cfg, c, d, outcomes[0]), d, keepalive, plan[1..], outcomes[1..]);
    }
  }

  lemma StillWaits(cfg: Config, c: Client, d: nat, keepalive: bool, plan: seq<Batch>)
    requires Cap(cfg, keepalive) >= 1 && d < |c.drains| && plan != [] && Follows(cfg, c, d, keepalive, plan)
    ensures c.drains[d].Awaiting? && c.drains[d].sending == plan[0]
  {
  }

  lemma RequestsStep(cfg: Config, c: Client, d: nat, outcomes: seq<Outcome>)
    requires d < |c.drains|
    ensures outcomes == [] ==> Requests(cfg, c, d, outcomes).1 == c
    ensures outcomes != [] && c.drains[d].Awaiting? ==>
              && |Settle(cfg, c, d, outcomes[0]).drains| == |c.drains|
              && Requests(cfg, c, d, outcomes).1 == Requests(cfg, Settle(cfg, c, d, outcomes[0]), d, outcomes[1..]).1
  {
    if outcomes != [] && c.drains[d].Awaiting? { SettleKeepsDrains(cfg, c, d, outcomes[0]); }
    hide Settle;
  }

  lemma HavingStep(plan: seq<Batch>, outcomes: seq<Outcome>, outcome: Outcome, before: seq<Batch>)
    requires |plan| == |outcomes|
    ensures plan == [] ==> Having(plan, outcomes, outcome) == [] && before + [] == before
    ensures plan != [] ==>
              before + Having(plan, outcomes, outcome)
              == (if outcomes[0] == outcome then before + [plan[0]] else before) + Having(plan[1..], outcomes[1..], outcome)
  {
  }

  lemma NewestShort(a: seq<Batch>)
    ensures |Newest(a, 100)| <= 100 && (|a| <= 100 ==> Newest(a, 100) == a)
  {
  }

  lemma {:induction false} ServedRetries(cfg: Config, c: Client, d: nat, keepalive: bool, plan: seq<Batch>, outcomes: seq<Outcome>)
    requires Cap(cfg, keepalive) >= 1 && d < |c.drains| && Follows(cfg, c, d, keepalive, plan) && |outcomes| == |plan|
    requires |c.retries| <= 100
    ensures Requests(cfg, c, d, outcomes).1.retries == Newest(c.retries + Having(plan, outcomes, Retry), 100)
    decreases |plan|
  {
    hide *;
    RequestsStep(cfg, c, d, outcomes);
    HavingStep(plan, outcomes, Retry, c.retries);
    NewestShort(c.retries);
    if plan != [] {
      SettleFollows(cfg, c, d, keepalive, plan, outcomes[0]);
      StillWaits(cfg, c, d, keepalive, plan);
      NewestShort(c.retries + [plan[0]]);
      NewestTwice(c.retries + [plan[0]], Having(plan[1..], outcomes[1..], Retry), 100);
      ServedRetries(cfg, Settle(cfg, c, d, outcomes[0]), d, keepalive, plan[1..], outcomes[1..]);
    }
  }

  /** The items of the batches that ended in this way. */
  lemma HavingItems(plan: seq<Batch>, outcomes: seq<Outcome>, outcome: Outcome)
    requires |plan| == |outcomes|
    ensures plan == [] ==> multiset(Flat(Having(plan, outcomes, outcome))) == multiset{}
    ensures plan != [] ==>
              multiset(Flat(Having(plan, outcomes, outcome)))
              == (if outcomes[0] == outcome then multiset(plan[0].items) else multiset{})
                 + multiset(Flat(Having(plan[1..], outcomes[1..], outcome)))
  {
    if plan != [] {
      FlatFirst(plan[0], Having(plan[1..], outcomes[1..], outcome));
      assert [] + Having(plan[1..], outcomes[1..], outcome) == Having(plan[1..], outcomes[1..], outcome);
    }
  }

  lemma {:induction false} ServedLedger(cfg: Config, c: Client, d: nat, keepalive: bool, plan: seq<Batch>, outcomes: seq<Outcome>)
    requires Cap(cfg, keepalive) >= 1 && d < |c.drains| && Follows(cfg, c, d, keepalive, plan) && |outcomes| == |plan|
    ensures var end := Requests(cfg, c, d, outcomes).1;
            && end.ledger.accepted == c.ledger.accepted + multiset(Flat(Having(plan, outcomes, Ok)))
            && end.ledger.rejected == c.ledger.rejected + multiset(Flat(Having(plan, outcomes, Drop)))
    decreases |plan|
  {
    hide *;
    RequestsStep(cfg, c, d, outcomes);
    HavingItems(plan, outcomes, Ok);
    HavingItems(plan, outcomes, Drop);
    if plan != [] {
      SettleFollows(cfg, c, d, keepalive, plan, outcomes[0]);
      StillWaits(cfg, c, d, keepalive, plan);
      ServedLedger(cfg, Settle(cfg, c, d, outcomes[0]), d, keepalive, plan[1..], outcomes[1..]);
    }
  }

  lemma FlatFirst(b: Batch, bs: seq<Batch>)
    ensures multiset(Flat([b] + bs)) == multiset(b.items) + multiset(Flat(bs))
  {
    assert ([b] + bs)[1..] == bs;
  }

  /**
   * A drain that nothing disturbs sends the retry batches as they were, then the entities, then the
   * events, each queue oldest first in chunks of 25 for a keepalive flush and of the batch size else.
   * What was accepted and what was rejected is recorded so, and of the batches that failed in a way
   * that may pass, the newest 100 wait for the next drain.
   */
  lemma UndisturbedDrain(cfg: Config, c: Client, keepalive: bool, outcomes: seq<Outcome>)
    requires Cap(cfg, keepalive) >= 1 && (keepalive || !c.flushing) && |outcomes| == |Plan(cfg, c, keepalive)|
    ensures var start, d, plan := Flush(cfg, c, keepalive), |c.drains|, Plan(cfg, c, keepalive);
            && |start.drains| == d + 1
            && var (sent, end) := Requests(cfg, start, d, outcomes);
               && sent == plan && |end.drains| == d + 1 && end.drains[d] == (if keepalive then Finished else Returning)
               && end.events == [] && end.entities == []
               && end.retries == Newest(Having(plan, outcomes, Retry), 100)
               && end.ledger.accepted == c.ledger.accepted + multiset(Flat(Having(plan, outcomes, Ok)))
               && end.ledger.rejected == c.ledger.rejected + multiset(Flat(Having(plan, outcomes, Drop)))
  {
    var started, d := FlushStarted(c, keepalive), |c.drains|;
    var start, plan := Flush(cfg, c, keepalive), Plan(cfg, c, keepalive);
    assert plan == Rest(cfg, started, keepalive, Retrying(c.retries));
    RetriesFollow(cfg, started, d, keepalive, c.retries);
    assert start == Resume(cfg, started, d, keepalive, Retrying(c.retries));
    ResumeKeeps(cfg, started, d, keepalive, Retrying(c.retries));
    hide Resume, Flush, StartRetries, Rest, Plan;
    Served(cfg, start, d, keepalive, plan, outcomes);
    ServedRetries(cfg, start, d, keepalive, plan, outcomes);
    ServedLedger(cfg, start, d, keepalive, plan, outcomes);
    assert [] + Having(plan, outcomes, Retry) == Having(plan, outcomes, Retry);
    hide Requests;
  }
}
