/** What every step does to releases, evidence and decisions, and the answer to every request. */
module DecisionSteps {
  import opened Wrappers
  import opened Evaluation
  import opened Decisions
  import R = Releases

  /** The moves of a release. */
  const MOVES := {(R.Planned, R.Deployed), (R.Deployed, R.Observing), (R.Observing, R.Decided),
                  (R.Planned, R.Cancelled), (R.Deployed, R.Cancelled), (R.Observing, R.Cancelled)}

  /** The release has moved and its log says so. */
  predicate IsMoved(g: R.Registry, h: R.Registry, id: nat, to: R.Status, actor: string) {
    && id < |g.rows| == |h.rows|
    && (forall i :: 0 <= i < |g.rows| ==> h.rows[i] == if i == id then to else g.rows[i])
    && h.log == g.log + [R.Revision(id, Some(g.rows[id]), to, actor)]
  }

  /** The answer to a move: an unknown release, a move that does not exist, an invalid contract, or none of these. */
  lemma MoveIff(g: R.Registry, id: nat, to: R.Status, valid: bool)
    ensures R.Judge(g, id, to, valid) == R.NotFound <==> id >= |g.rows|
    ensures R.Judge(g, id, to, valid) == R.InvalidTransition <==> id < |g.rows| && (g.rows[id], to) !in MOVES
    ensures R.Judge(g, id, to, valid) == R.ContractInvalid <==> id < |g.rows| && g.rows[id] == R.Deployed && to == R.Observing && !valid
    ensures R.Judge(g, id, to, valid) == R.Ok <==>
              id < |g.rows| && (g.rows[id], to) in MOVES && (to == R.Observing ==> valid)
  {
  }

  // ----- decisions -----

  /** The outcome that a command accepts: the proposed one, the edited one, or none. */
  predicate Accepts(x: Decision, c: Command, outcome: Option<Outcome>) {
    outcome == match c { case Approve(_) => Some(x.proposed) case Edit(o, _) => Some(o) case Reject(_) => None }
  }

  /** A command that accepts Keep, Fix or Rollback. */
  predicate IsDirectional(x: Decision, c: Command) {
    match c
    case Approve(_) => x.proposed != Inconclusive
    case Edit(outcome, _) => outcome != Inconclusive
    case Reject(_) => false
  }

  /** Only a proposed decision is approved or rejected; an approved one is not edited. */
  predicate IsOpen(x: Decision, c: Command) {
    if c.Edit? then x.status == Proposed || x.status == Rejected else x.status == Proposed
  }

  /** The answer to a review. */
  lemma ReviewIff(d: Desk, id: nat, c: Command)
    requires Linked(d)
    ensures Review(d, id, c) == NotFound <==> id >= |d.decisions|
    ensures Review(d, id, c) == AlreadyReviewed <==> id < |d.decisions| && !c.Edit? && d.decisions[id].status != Proposed
    ensures Review(d, id, c) == AlreadyApproved <==> id < |d.decisions| && c.Edit? && d.decisions[id].status == Approved
    ensures Review(d, id, c) == DirectionalForbidden <==>
              && id < |d.decisions| && IsOpen(d.decisions[id], c) && IsDirectional(d.decisions[id], c)
              && var e := d.evidence[d.decisions[id].evidence]; !e.ready || !e.trusted
    ensures Review(d, id, c) == Ok <==>
              && id < |d.decisions| && IsOpen(d.decisions[id], c)
              && (IsDirectional(d.decisions[id], c) ==> var e := d.evidence[d.decisions[id].evidence]; e.ready && e.trusted)
  {
  }

  /** Decision `id` was reviewed: the next revision of it, from what it was, with its actor and rationale. */
  predicate IsReviewed(d: Desk, t: Desk, id: nat, c: Command, actor: string)
    requires id < |d.decisions|
  {
    && |t.decisions| == |d.decisions| && (forall i :: 0 <= i < |d.decisions| && i != id ==> t.decisions[i] == d.decisions[i])
    && var x, y := d.decisions[id], t.decisions[id];
    && y.id == x.id && y.release == x.release && y.evidence == x.evidence && y.proposed == x.proposed
    && y.status == (if c.Reject? then Rejected else Approved) && Accepts(x, c, y.accepted)
    && y.rationale == Some(c.rationale) && y.revision == x.revision + 1
    && var action := match c { case Approve(_) => ApprovedAction case Edit(_, _) => EditedAction case Reject(_) => RejectedAction };
       t.log == d.log + [Decisions.Revision(id, y.revision, action, actor, Some(x), y, c.rationale)]
  }

  /** New evidence was recorded with the decision it proposes, as revision 1. */
  predicate IsRecorded(d: Desk, t: Desk, release: nat, key: string, e: Evaluated, actor: string, rationale: string) {
    && t.evidence == d.evidence + [Evidence(release, key, e.ready, e.trusted, e.blockers)]
    && |t.decisions| == |d.decisions| + 1 && t.decisions[..|d.decisions|] == d.decisions
    && var x := t.decisions[|d.decisions|];
    && x.id == |d.decisions| && x.release == release && x.evidence == |d.evidence| && x.status == Proposed
    && x.proposed == e.outcome && x.accepted.None? && x.rationale.None? && x.revision == 1
    && t.log == d.log + [Decisions.Revision(x.id, 1, ProposedAction, actor, None, x, rationale)]
  }

  ghost predicate Follows(d: Desk, s: Step, t: Desk)
    requires Linked(d)
  {
    match s
    case Registering(deployed, actor) =>
      && t == d.(releases := t.releases)
      && var status := if deployed then R.Deployed else R.Planned;
         t.releases == R.Registry(d.releases.rows + [status], d.releases.log + [R.Revision(|d.releases.rows|, None, status, actor)])
    case Transitioning(release, to, valid, actor) =>
      && t == d.(releases := t.releases)
      && if release < |d.releases.rows| && (d.releases.rows[release], to) in MOVES && (to == R.Observing ==> valid)
         then IsMoved(d.releases, t.releases, release, to, actor) else t == d
    case Evaluating(release, key, input, actor, rationale) =>
      if || (forall x :: x in d.releases.log && x.release == release ==> x.to != R.Deployed)
         || (exists e :: e in d.evidence && e.release == release && e.key == key)
      then t == d
      else t.releases == d.releases && IsRecorded(d, t, release, key, Evaluate(input), actor, rationale)
    case Revising(id, c, actor) =>
      if Review(d, id, c) != Ok then t == d
      else
        && id < |d.decisions| && t.evidence == d.evidence && IsReviewed(d, t, id, c, actor)
        && var r := d.decisions[id].release;
        if !c.Reject? && r < |d.releases.rows| && d.releases.rows[r] == R.Observing
        then IsMoved(d.releases, t.releases, r, R.Decided, actor) else t.releases == d.releases
  }

  lemma StepFollows(d: Desk, s: Step)
    requires Linked(d)
    ensures Follows(d, s, Apply(d, s))
  {
    hide Evaluate;
    match s
    case Transitioning(release, to, valid, actor) => MoveIff(d.releases, release, to, valid); hide R.IsAllowed;
    case Revising(id, c, actor) => ReviewIff(d, id, c);
    case _ =>
  }

  /** On every run: what the last step did. */
  lemma RunFollows(steps: seq<Step>)
    requires steps != []
    ensures Follows(Run(steps[..|steps| - 1]), steps[|steps| - 1], Run(steps))
  {
    hide Follows, Apply;
    StepFollows(Run(steps[..|steps| - 1]), steps[|steps| - 1]);
  }
}
