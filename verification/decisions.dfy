/** Decisions and their revision chain: `persistEvaluation` of src/services/evaluation.ts and src/services/decisions.ts. */
module Decisions {
  import opened Wrappers
  import opened Evaluation
  import Releases

  datatype Status = Proposed | Approved | Rejected
  datatype Action = ProposedAction | ApprovedAction | EditedAction | RejectedAction

  datatype Evidence = Evidence(release: nat, key: string, ready: bool, trusted: bool, blockers: seq<string>)

  datatype Decision = Decision(
    id: nat,
    release: nat,
    evidence: nat,
    status: Status,
    proposed: Outcome,
    accepted: Option<Outcome>,
    rationale: Option<string>,
    revision: nat)

  datatype Revision = Revision(
    decision: nat,
    number: nat,
    action: Action,
    actor: string,
    previous: Option<Decision>,
    snapshot: Decision,
    rationale: string)

  /** The tables of one project; rows are never deleted, so a row's id is its place. */
  datatype Desk = Desk(evidence: seq<Evidence>, decisions: seq<Decision>, log: seq<Revision>, releases: Releases.Registry)

  const EMPTY_DESK := Desk([], [], [], Releases.NO_RELEASES)

  datatype Command =
    | Approve(rationale: string)
    | Reject(rationale: string)
    | Edit(outcome: Outcome, rationale: string)

  datatype Reply = Ok | NotFound | AlreadyReviewed | AlreadyApproved | DirectionalForbidden

  // ----- evaluation results -----

  predicate HasEvidence(d: Desk, release: nat, key: string) {
    exists e :: e in d.evidence && e.release == release && e.key == key
  }

  /** The same evidence again changes nothing. */
  function Persist(d: Desk, release: nat, key: string, e: Evaluated, actor: string, rationale: string): Desk {
    if HasEvidence(d, release, key) then d
    else
      var decision := Decision(|d.decisions|, release, |d.evidence|, Proposed, e.outcome, None, None, 1);
      d.(evidence := d.evidence + [Evidence(release, key, e.ready, e.trusted, e.blockers)],
         decisions := d.decisions + [decision],
         log := d.log + [Revision(decision.id, 1, ProposedAction, actor, None, decision, rationale)])
  }

  // ----- review -----

  /** The outcome a command would accept. */
  function OutcomeOf(previous: Decision, c: Command): Option<Outcome> {
    match c
    case Approve(_) => Some(previous.proposed)
    case Edit(outcome, _) => Some(outcome)
    case Reject(_) => None
  }

  predicate IsSolid(e: Evidence) { e.ready && e.trusted }

  function Review(d: Desk, id: nat, c: Command): Reply
    requires id < |d.decisions| ==> d.decisions[id].evidence < |d.evidence|
  {
    if id >= |d.decisions| then NotFound
    else
      var previous := d.decisions[id];
      var outcome := OutcomeOf(previous, c);
      if !c.Edit? && previous.status != Proposed then AlreadyReviewed
      else if c.Edit? && previous.status == Approved then AlreadyApproved
      else if outcome.Some? && outcome.value != Inconclusive && !IsSolid(d.evidence[previous.evidence]) then DirectionalForbidden
      else Ok
  }

  function Reviewed(previous: Decision, c: Command): Decision {
    previous.(status := if c.Reject? then Rejected else Approved,
              accepted := OutcomeOf(previous, c),
              rationale := Some(c.rationale),
              revision := previous.revision + 1)
  }

  function ActionOf(c: Command): Action {
    if c.Approve? then ApprovedAction else if c.Edit? then EditedAction else RejectedAction
  }

  /** `reviseDecision`: one transaction. */
  function Revise(d: Desk, id: nat, c: Command, actor: string): Desk
    requires id < |d.decisions| ==> d.decisions[id].evidence < |d.evidence|
  {
    if Review(d, id, c) != Ok then d
    else
      var previous := d.decisions[id];
      var decision := Reviewed(previous, c);
      d.(decisions := d.decisions[id := decision],
         log := d.log + [Revision(id, decision.revision, ActionOf(c), actor, Some(previous), decision, c.rationale)],
         releases := if c.Reject? then d.releases else Releases.Finalized(d.releases, previous.release, actor))
  }

  // ----- runs -----

  /**
   * `Evaluating` is the transaction that ends an evaluation. The release was deployed or observed when the
   * evaluation began; it may have moved on since, but never back. The move to observing that a ready
   * evaluation makes is a transition of its own.
   */
  datatype Step =
    | Registering(deployed: bool, actor: string)
    | Transitioning(release: nat, to: Releases.Status, valid: bool, actor: string)
    | Evaluating(release: nat, key: string, input: Input, actor: string, rationale: string)
    | Revising(id: nat, command: Command, actor: string)

  function Apply(d: Desk, s: Step): Desk
    requires Linked(d)
  {
    match s
    case Registering(deployed, actor) => d.(releases := Releases.Register(d.releases, deployed, actor))
    case Transitioning(release, to, valid, actor) =>
      d.(releases := Releases.Transition(d.releases, release, to, valid, actor))
    case Evaluating(release, key, input, actor, rationale) =>
      if Releases.WasDeployed(d.releases, release) then Persist(d, release, key, Evaluate(input), actor, rationale) else d
    case Revising(id, command, actor) => Revise(d, id, command, actor)
  }

  /** Every decision points at its evidence. */
  predicate Linked(d: Desk) {
    forall i :: 0 <= i < |d.decisions| ==> d.decisions[i].id == i && d.decisions[i].evidence < |d.evidence|
  }

  lemma ApplyLinked(d: Desk, s: Step)
    requires Linked(d)
    ensures Linked(Apply(d, s))
  {
  }

  function Run(steps: seq<Step>): (d: Desk)
    ensures Linked(d)
  {
    if steps == [] then EMPTY_DESK
    else
      var d := Run(steps[..|steps| - 1]);
      ApplyLinked(d, steps[|steps| - 1]);
      Apply(d, steps[|steps| - 1])
  }

  // ----- the tables as they are changed in place -----

  class DecisionTables {
    var evidence: seq<Evidence>
    var decisions: seq<Decision>
    var log: seq<Revision>
    var releases: seq<Releases.Status>
    var releaseLog: seq<Releases.Revision>

    ghost function Model(): Desk
      reads this
    {
      Desk(evidence, decisions, log, Releases.Registry(releases, releaseLog))
    }

    constructor ()
      ensures Model() == EMPTY_DESK
    {
      evidence, decisions, log, releases, releaseLog := [], [], [], [], [];
    }

    method RegisterRelease(deployed: bool, actor: string) returns (id: nat)
      modifies `releases, `releaseLog
      ensures Model().releases == Releases.Register(old(Model()).releases, deployed, actor)
      ensures id == old(|releases|)
    {
      id := |releases|;
      var status := if deployed then Releases.Deployed else Releases.Planned;
      releases := releases + [status];
      releaseLog := releaseLog + [Releases.Revision(id, None, status, actor)];
    }

    method TransitionRelease(id: nat, to: Releases.Status, valid: bool, actor: string) returns (reply: Releases.Reply)
      modifies `releases, `releaseLog
      ensures reply == Releases.Judge(old(Model()).releases, id, to, valid)
      ensures Model().releases == Releases.Transition(old(Model()).releases, id, to, valid, actor)
    {
      if id >= |releases| { return Releases.NotFound; }
      var from := releases[id];
      if !Releases.IsAllowed(from, to) { return Releases.InvalidTransition; }
      if to == Releases.Observing && !valid { return Releases.ContractInvalid; }
      releases := releases[id := to];
      releaseLog := releaseLog + [Releases.Revision(id, Some(from), to, actor)];
      return Releases.Ok;
    }

    method PersistEvaluation(release: nat, key: string, e: Evaluated, actor: string, rationale: string) returns (idempotent: bool)
      modifies this
      ensures Model() == Persist(old(Model()), release, key, e, actor, rationale)
      ensures idempotent == HasEvidence(old(Model()), release, key)
    {
      if exists x :: x in evidence && x.release == release && x.key == key { return true; }
      var decision := Decision(|decisions|, release, |evidence|, Proposed, e.outcome, None, None, 1);
      evidence := evidence + [Evidence(release, key, e.ready, e.trusted, e.blockers)];
      decisions := decisions + [decision];
      log := log + [Revision(decision.id, 1, ProposedAction, actor, None, decision, rationale)];
      return false;
    }

    method FinalizeObservedRelease(release: nat, actor: string)
      modifies `releases, `releaseLog
      ensures Model().releases == Releases.Finalized(old(Model()).releases, release, actor)
    {
      if release >= |releases| || releases[release] != Releases.Observing { return; }
      releaseLog := releaseLog + [Releases.Revision(release, Some(releases[release]), Releases.Decided, actor)];
      releases := releases[release := Releases.Decided];
    }

    method ReviseDecision(id: nat, c: Command, actor: string) returns (reply: Reply)
      requires Linked(Model())
      modifies this
      ensures reply == Review(old(Model()), id, c)
      ensures Model() == Revise(old(Model()), id, c, actor)
    {
      if id >= |decisions| { return NotFound; }
      var previous := decisions[id];
      if !c.Edit? && previous.status != Proposed { return AlreadyReviewed; }
      if c.Edit? && previous.status == Approved { return AlreadyApproved; }
      var outcome := if c.Approve? then Some(previous.proposed) else if c.Edit? then Some(c.outcome) else None;
      var e := evidence[previous.evidence];
      if outcome.Some? && outcome.value != Inconclusive && (!e.ready || !e.trusted) { return DirectionalForbidden; }
      var decision := previous.(status := if c.Reject? then Rejected else Approved, accepted := outcome,
                                rationale := Some(c.rationale), revision := previous.revision + 1);
      decisions := decisions[id := decision];
      log := log + [Revision(id, decision.revision, ActionOf(c), actor, Some(previous), decision, c.rationale)];
      if decision.status == Approved { FinalizeObservedRelease(previous.release, actor); }
      return Ok;
    }
  }
}
