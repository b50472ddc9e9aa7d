/**
 * The server side of batch delivery: one row per batch id claims the id, and only
 * the request that claims it appends events. A claim older than the reclaim
 * interval may be taken again.
 */
module BatchStore {
  import opened Sequences

  /** 35 days, in milliseconds. */
  const RECLAIM_MS := 35 * 24 * 3600 * 1000

  /** One stored event and the batch id it was stored under. */
  datatype Entry<T> = Entry(batch: nat, item: T)

  datatype Server<T> = Server(claims: map<nat, int>, log: seq<Entry<T>>)

  function Items<T>(log: seq<Entry<T>>): (items: seq<T>)
    ensures |items| == |log|
    ensures forall i :: 0 <= i < |log| ==> items[i] == log[i].item
  {
    seq(|log|, i requires 0 <= i < |log| => log[i].item)
  }

  function Entries<T>(id: nat, items: seq<T>): (log: seq<Entry<T>>)
    ensures |log| == |items|
    ensures forall i :: 0 <= i < |items| ==> log[i] == Entry(id, items[i])
  {
    seq(|items|, i requires 0 <= i < |items| => Entry(id, items[i]))
  }

  /** The id is known but its claim is old enough to be taken over. */
  predicate Reclaims<T>(s: Server<T>, id: nat, now: int) {
    id in s.claims && s.claims[id] < now - RECLAIM_MS
  }

  /** A request under this id claims it: nobody has, or the claim is old enough. */
  predicate Takes<T>(s: Server<T>, id: nat, now: int) {
    id !in s.claims || Reclaims(s, id, now)
  }

  /**
   * One request. `kept` are the events of the payload that pass per-event validation.
   */
  function Append<T>(s: Server<T>, id: nat, kept: seq<T>, now: int): Server<T> {
    if Takes(s, id, now)
    then Server(s.claims[id := now], s.log + Entries(id, kept))
    else s
  }

  /** Every stored event sits under the one batch id that owns it, and that id is claimed. */
  ghost predicate Consistent<T(!new)>(s: Server<T>, owner: map<T, nat>) {
    forall e :: e in s.log ==> e.batch in s.claims && e.item in owner && owner[e.item] == e.batch
  }

  ghost predicate AtMostOnce<T(!new)>(s: Server<T>) {
    Distinct(Items(s.log))
  }

  /** A batch whose events all belong to it. */
  ghost predicate Owned<T(!new)>(owner: map<T, nat>, id: nat, items: seq<T>) {
    Distinct(items) && forall x :: x in items ==> x in owner && owner[x] == id
  }

  lemma ItemsOfEntries<T(!new)>(log: seq<Entry<T>>, id: nat, kept: seq<T>)
    ensures Items(log + Entries(id, kept)) == Items(log) + kept
  {
  }

  lemma LoggedIsClaimed<T(!new)>(s: Server<T>, owner: map<T, nat>)
    requires Consistent(s, owner)
    ensures forall x :: x in Items(s.log) ==> x in owner && owner[x] in s.claims
  {
    forall x | x in Items(s.log)
      ensures x in owner && owner[x] in s.claims
    {
      var i :| 0 <= i < |s.log| && s.log[i].item == x;
      assert s.log[i] in s.log;
    }
  }

  lemma AppendConsistent<T(!new)>(s: Server<T>, owner: map<T, nat>, id: nat, kept: seq<T>, now: int)
    requires Consistent(s, owner) && Owned(owner, id, kept)
    ensures Consistent(Append(s, id, kept, now), owner)
  {
  }

  /**
   * Exactly when one request keeps "stored at most once": always, unless it takes over an
   * expired claim and carries an event that is already stored.
   */
  lemma AppendAtMostOnce<T(!new)>(s: Server<T>, owner: map<T, nat>, id: nat, kept: seq<T>, now: int)
    requires Consistent(s, owner) && AtMostOnce(s) && Owned(owner, id, kept)
    ensures AtMostOnce(Append(s, id, kept, now)) <==>
            !((id in s.claims && s.claims[id] < now - 3_024_000_000) && exists x :: x in kept && x in Items(s.log))
  {
    ItemsOfEntries(s.log, id, kept);
    DistinctAppend(Items(s.log), kept);
    LoggedIsClaimed(s, owner);
  }

  /** Ownership only ever grows; growing it keeps consistency. */
  lemma ConsistentGrows<T(!new)>(s: Server<T>, owner: map<T, nat>, owner': map<T, nat>)
    requires Consistent(s, owner)
    requires forall x :: x in owner ==> x in owner' && owner'[x] == owner[x]
    ensures Consistent(s, owner')
  {
  }
}
