/**
 * The interaction queue, a network that may deliver any request ever sent any number of
 * times, and the server's batch table. The same batch may be queued twice after a keepalive
 * flush shared it; uniqueness is per batch id.
 */
module ExperienceDelivery {
  import opened Wrappers
  import opened Sequences
  import opened ExperienceClient
  import opened ExperienceQueue
  import opened BatchStore

  datatype System = System(session: Session, sent: set<Batch>, server: Server<Event>)

  datatype Move = Local(step: Step) | Delivering(batch: Batch, now: int)

  const FRESH_SYSTEM := System(FRESH_SESSION, {}, Server(map[], []))

  function OnTheWire(calls: seq<Call>): set<Batch> {
    set c | c in calls && !c.Ended? :: c.batch
  }

  function Go(cfg: Config, s: System, move: Move): System
    requires Usable(cfg)
  {
    match move
    case Local(step) =>
      var session := Apply(cfg, s.session, step);
      s.(session := session, sent := s.sent + OnTheWire(session.calls))
    case Delivering(b, now) =>
      if b in s.sent then s.(server := Append(s.server, b.id, b.events, now)) else s
  }

  function RunAll(cfg: Config, moves: seq<Move>): System
    requires Usable(cfg)
  {
    if moves == [] then FRESH_SYSTEM
    else Go(cfg, RunAll(cfg, moves[..|moves| - 1]), moves[|moves| - 1])
  }

  /** Batch ids are only ever added. */
  ghost predicate Grows(s: Session, s': Session) {
    s.nextBatch <= s'.nextBatch && forall e :: e in s.batchOf ==> e in s'.batchOf && s'.batchOf[e] == s.batchOf[e]
  }

  lemma NextBatchGrows(s: Session)
    requires forall e :: e in s.pending ==> e !in s.batchOf
    ensures Grows(s, NextBatch(s).0)
  {
    if s.retryBatches == [] && s.pending != [] {
      var k := BatchTaken(s);
      assert forall e :: e in s.pending[..k] ==> e in s.pending;
    }
  }

  lemma DrainGrows(s: Session, c: nat, explicit: bool)
    requires c < |s.calls| && forall e :: e in s.pending ==> e !in s.batchOf
    ensures Grows(s, Drain(s, c, explicit))
  {
    NextBatchGrows(s);
  }

  lemma FlushGrows(s: Session, keepalive: bool, allowed: bool)
    requires Ordered(s)
    ensures Grows(s, Flush(s, keepalive, allowed))
  {
    if keepalive {
      NextBatchGrows(s);
    } else {
      DrainGrows(s.(flushing := true, calls := s.calls + [Ended]), |s.calls|, !s.started);
    }
  }

  lemma SettleGrows(cfg: Config, s: Session, c: nat, outcome: Outcome)
    requires Ordered(s) && c < |s.calls| && !s.calls[c].Ended?
    ensures Grows(s, Settle(cfg, s, c, outcome))
  {
    if s.calls[c].Draining? {
      DrainGrows(Landed(s, s.calls[c].batch), c, s.calls[c].explicit);
    }
  }

  lemma ApplyGrows(cfg: Config, s: Session, step: Step)
    requires Usable(cfg) && Ordered(s)
    ensures Grows(s, Apply(cfg, s, step))
  {
    if Enabled(s, step) {
      match step
      case Flushing(keepalive, allowed) => FlushGrows(s, keepalive, allowed);
      case Settling(call, outcome) => SettleGrows(cfg, s, call, outcome);
      case _ =>
    }
  }

  ghost predicate WireSound(cfg: Config, s: System) {
    && Bounded(cfg, s.session) && Ordered(s.session)
    && (forall b :: b in s.sent ==> GoodBatch(s.session, b))
    && Consistent(s.server, s.session.batchOf)
  }

  lemma {:induction false} DistinctFromOrder(es: seq<Event>)
    requires Increasing(es)
    ensures Distinct(es)
  {
    if es != [] {
      DistinctFromOrder(es[1..]);
      assert es == [es[0]] + es[1..];
      assert es[0] !in es[1..];
    }
  }

  lemma GoKeeps(cfg: Config, s: System, move: Move)
    requires Usable(cfg) && WireSound(cfg, s)
    ensures WireSound(cfg, Go(cfg, s, move))
  {
    match move
    case Local(step) =>
      var s' := Apply(cfg, s.session, step);
      ApplyKeeps(cfg, s.session, step);
      ApplyGrows(cfg, s.session, step);
      forall b | b in s.sent + OnTheWire(s'.calls) ensures GoodBatch(s', b) {
        if b in OnTheWire(s'.calls) {
          assert Holds(s', b);
        } else {
          assert GoodBatch(s.session, b);
        }
      }
    case Delivering(b, now) =>
      if b in s.sent {
        DistinctFromOrder(b.events);
        AppendConsistent(s.server, s.session.batchOf, b.id, b.events, now);
      }
  }

  lemma {:induction false} RunSound(cfg: Config, moves: seq<Move>)
    requires Usable(cfg)
    ensures WireSound(cfg, RunAll(cfg, moves))
  {
    if moves != [] {
      RunSound(cfg, moves[..|moves| - 1]);
      GoKeeps(cfg, RunAll(cfg, moves[..|moves| - 1]), moves[|moves| - 1]);
    }
  }

  /** A request that takes over an expired claim and carries an event already stored. */
  ghost predicate Restores(s: System, move: Move) {
    && move.Delivering? && move.batch in s.sent && move.batch.id in s.server.claims && s.server.claims[move.batch.id] < move.now - 3_024_000_000
    && exists e :: e in move.batch.events && e in Items(s.server.log)
  }

  ghost predicate NeverRestores(cfg: Config, moves: seq<Move>)
    requires Usable(cfg)
  {
    moves == []
    || (NeverRestores(cfg, moves[..|moves| - 1])
        && !Restores(RunAll(cfg, moves[..|moves| - 1]), moves[|moves| - 1]))
  }

  /**
   * Every interaction is stored at most once on every run, exactly when no request takes over an
   * expired claim while carrying an event already stored.
   */
  lemma {:induction false} StoredAtMostOnce(cfg: Config, moves: seq<Move>)
    requires Usable(cfg)
    ensures AtMostOnce(RunAll(cfg, moves).server) <==> NeverRestores(cfg, moves)
  {
    if moves != [] {
      var s, move := RunAll(cfg, moves[..|moves| - 1]), moves[|moves| - 1];
      StoredAtMostOnce(cfg, moves[..|moves| - 1]);
      RunSound(cfg, moves[..|moves| - 1]);
      if move.Delivering? && move.batch in s.sent {
        var b := move.batch;
        DistinctFromOrder(b.events);
        ItemsOfEntries(s.server.log, b.id, b.events);
        if AtMostOnce(s.server) {
          AppendAtMostOnce(s.server, s.session.batchOf, b.id, b.events, move.now);
        } else if AtMostOnce(RunAll(cfg, moves).server) && RunAll(cfg, moves).server != s.server {
          DistinctParts(Items(s.server.log), b.events);
        }
      }
    }
  }

  /** Requests that all arrive within one reclaim interval are enough. */
  lemma {:induction false} WithinInterval(cfg: Config, moves: seq<Move>, from: int)
    requires Usable(cfg)
    requires forall i :: 0 <= i < |moves| && moves[i].Delivering? ==> from <= moves[i].now <= from + 3_024_000_000
    ensures forall id :: id in RunAll(cfg, moves).server.claims ==> from <= RunAll(cfg, moves).server.claims[id]
    ensures AtMostOnce(RunAll(cfg, moves).server)
  {
    if moves != [] {
      WithinInterval(cfg, moves[..|moves| - 1], from);
      StoredAtMostOnce(cfg, moves[..|moves| - 1]);
    }
    StoredAtMostOnce(cfg, moves);
  }
}
