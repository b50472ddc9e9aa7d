/** The approval gate of actions under every interleaving, and when `executed` is final. */
module ActionGate {
  import opened Evaluation
  import Decisions
  import DecisionChain
  import opened Actions

  /** Somebody presented this action's own fingerprint while its decision was approved. */
  ghost predicate Confirmed(b: Board, id: nat) {
    id < |b.actions| && (id, b.actions[id].fingerprint) in b.confirmations
  }

  predicate IsRunning(b: Board, id: nat) {
    exists e :: e in b.executions && e.action.id == id
  }

  /** An action has been approved, executed or failed exactly if it was confirmed; confirmed means decided and supported. */
  ghost predicate RowGate(b: Board, id: nat)
    requires id < |b.actions|
  {
    && (b.actions[id].status != Prepared && b.actions[id].status != Rejected <==> Confirmed(b, id))
    && (Confirmed(b, id) ==> IsDecisionApproved(b, b.actions[id].fingerprint.decision) && IsSupported(b.actions[id].fingerprint.kind))
  }

  ghost predicate Gate(b: Board) {
    && Linked(b) && DecisionChain.Chained(b.desk)
    && (forall id :: 0 <= id < |b.actions| ==> RowGate(b, id))
    && (forall e :: e in b.executions ==> Confirmed(b, e.action.id))
    && (forall x :: x in b.audit && x.event == ExecutedEvent ==> Confirmed(b, x.snapshot.id))
    && (forall e :: e in b.executions && e.phase.Auditing? ==> e.phase.done.id == e.action.id)
  }

  lemma PrepareGate(b: Board, p: Preparation)
    requires Gate(b) && (forall c :: c in b.confirmations ==> c.0 < |b.actions|)
    ensures Gate(Prepare(b, p))
  {
    hide DecisionChain.Chained;
    var b' := Prepare(b, p);
    forall id | 0 <= id < |b'.actions| ensures RowGate(b', id) {
      if id < |b.actions| { assert RowGate(b, id); }
    }
  }

  lemma ApproveGate(b: Board, id: nat, f: Fingerprint, actor: string)
    requires Gate(b)
    ensures Gate(Approve(b, id, f, actor))
  {
    hide DecisionChain.Chained, IsSupported;
    var b' := Approve(b, id, f, actor);
    if Judge(b, id, f) == Accepted {
      assert b'.confirmations[|b.confirmations|] == (id, f);
      forall i | 0 <= i < |b'.actions| ensures RowGate(b', i) { assert RowGate(b, i); }
    }
  }

  lemma RejectGate(b: Board, id: nat, rationale: string, actor: string)
    requires Gate(b)
    ensures Gate(Reject(b, id, rationale, actor))
  {
    hide DecisionChain.Chained, IsSupported;
    var b' := Reject(b, id, rationale, actor);
    forall i | 0 <= i < |b'.actions| ensures RowGate(b', i) { assert RowGate(b, i); }
  }

  lemma RetryGate(b: Board, id: nat, actor: string)
    requires Gate(b)
    ensures Gate(Retry(b, id, actor))
  {
    hide DecisionChain.Chained, IsSupported;
    if id < |b.actions| { assert RowGate(b, id); }
    var b' := Retry(b, id, actor);
    forall i | 0 <= i < |b'.actions| ensures RowGate(b', i) { assert RowGate(b, i); }
  }

  /** Ending or moving an execution touches no action. */
  lemma EndedGate(b: Board, k: nat)
    requires Gate(b) && k < |b.executions|
    ensures Gate(Ended(b, k))
  {
    hide DecisionChain.Chained, IsSupported;
    WithoutMembers(b.executions, k);
    var b' := Ended(b, k);
    hide Without;
    forall i | 0 <= i < |b'.actions| ensures RowGate(b', i) { assert RowGate(b, i); }
  }

  lemma PhaseGate(b: Board, k: nat, phase: Phase)
    requires Gate(b) && k < |b.executions| && (phase.Auditing? ==> phase.done.id == b.executions[k].action.id)
    ensures Gate(InPhase(b, k, phase))
  {
    hide DecisionChain.Chained, IsSupported;
    var b' := InPhase(b, k, phase);
    assert b.executions[k] in b.executions;
    forall e | e in b'.executions ensures Confirmed(b', e.action.id) && (e.phase.Auditing? ==> e.phase.done.id == e.action.id) {
      var j :| 0 <= j < |b'.executions| && b'.executions[j] == e;
      assert b.executions[j] in b.executions;
    }
    forall i | 0 <= i < |b'.actions| ensures RowGate(b', i) { assert RowGate(b, i); }
  }

  lemma LoggedGate(b: Board, k: nat, event: Event, snapshot: Action)
    requires Gate(b) && k < |b.executions| && (event == ExecutedEvent ==> Confirmed(b, snapshot.id))
    ensures Gate(Logged(b, k, event, snapshot))
  {
    hide DecisionChain.Chained, IsSupported;
    var b' := Logged(b, k, event, snapshot);
    forall i | 0 <= i < |b'.actions| ensures RowGate(b', i) { assert RowGate(b, i); }
  }

  /** Writing a new status of a confirmed action. */
  lemma WrittenGate(b: Board, id: nat, a: Action)
    requires Gate(b) && Confirmed(b, id) && a.id == id && a.fingerprint == b.actions[id].fingerprint
    requires a.status == Executed || a.status == Failed
    ensures Gate(b.(actions := b.actions[id := a]))
  {
    hide DecisionChain.Chained, IsSupported;
    var b' := b.(actions := b.actions[id := a]);
    forall i | 0 <= i < |b'.actions| ensures RowGate(b', i) { assert RowGate(b, i); }
  }

  lemma AdvanceGate(b: Board, k: nat, ok: bool)
    requires Gate(b) && k < |b.executions|
    ensures b.executions[k].action.id < |b.actions| && Gate(Advance(b, k, ok))
  {
    var e := b.executions[k];
    assert e in b.executions;
    assert Confirmed(b, e.action.id) && b.actions[e.action.id].id == e.action.id;
    hide Gate, Confirmed, IsSupported, Without;
    EndedGate(b, k);
    match e.phase
    case Retrying =>
      LoggedGate(b, k, RetriedEvent, e.action);
      PhaseGate(Logged(b, k, RetriedEvent, e.action), k, Working);
    case Working =>
      PhaseGate(b, k, Failing);
      var a := ExecutedRow(b.actions[e.action.id]);
      WrittenGate(b, e.action.id, a);
      PhaseGate(b.(actions := b.actions[e.action.id := a]), k, Auditing(a));
    case Auditing(a) =>
      PhaseGate(b, k, Failing);
      assert a.id == e.action.id by { AuditingOwn(b, k); }
      LoggedGate(b, k, ExecutedEvent, a);
      EndedGate(Logged(b, k, ExecutedEvent, a), k);
    case Failing =>
      var a := FailedRow(b.actions[e.action.id]);
      WrittenGate(b, e.action.id, a);
      PhaseGate(b.(actions := b.actions[e.action.id := a]), k, AuditingFailure(a));
    case AuditingFailure(a) =>
      LoggedGate(b, k, FailedEvent, a);
      EndedGate(Logged(b, k, FailedEvent, a), k);
  }

  lemma AuditingOwn(b: Board, k: nat)
    requires Gate(b) && k < |b.executions| && b.executions[k].phase.Auditing?
    ensures b.executions[k].phase.done.id == b.executions[k].action.id
  {
    assert b.executions[k] in b.executions;
  }

  lemma DecideGate(b: Board, s: Decisions.Step)
    requires Gate(b)
    ensures Gate(b.(desk := Decisions.Apply(b.desk, s)))
  {
    DecisionChain.StepChained(b.desk, s);
    Decisions.ApplyLinked(b.desk, s);
    var b' := b.(desk := Decisions.Apply(b.desk, s));
    forall d: nat | IsDecisionApproved(b, d) ensures IsDecisionApproved(b', d) {
      DecisionChain.ApprovedAbsorbs(b.desk, s, d);
    }
    hide DecisionChain.Chained, IsSupported, Decisions.Apply, IsDecisionApproved;
    forall i | 0 <= i < |b'.actions| ensures RowGate(b', i) { assert RowGate(b, i); }
  }

  ghost predicate ConfirmationsKnown(b: Board) {
    forall c :: c in b.confirmations ==> c.0 < |b.actions|
  }

  lemma StepConfirmationsKnown(b: Board, s: Step)
    requires Linked(b) && ConfirmationsKnown(b)
    ensures ConfirmationsKnown(Apply(b, s))
  {
    hide Decisions.Apply, IsSupported, IsDecisionApproved;
  }

  lemma StepGate(b: Board, s: Step)
    requires Gate(b) && ConfirmationsKnown(b)
    ensures Gate(Apply(b, s)) && ConfirmationsKnown(Apply(b, s))
  {
    StepConfirmationsKnown(b, s);
    hide Prepare, Approve, Reject, Retry, Advance, Ended, Gate;
    GateLinked(b);
    match s
    case Preparing(p) => PrepareGate(b, p);
    case Approving(id, fingerprint, actor) => ApproveGate(b, id, fingerprint, actor);
    case Rejecting(id, rationale, actor) => RejectGate(b, id, rationale, actor);
    case RetryingAction(id, actor) => RetryGate(b, id, actor);
    case Advancing(k, ok) => if k < |b.executions| { AdvanceGate(b, k, ok); }
    case Crashing(k) => if k < |b.executions| { EndedGate(b, k); }
    case Deciding(step) => DecideGate(b, step);
  }

  lemma GateLinked(b: Board)
    requires Gate(b)
    ensures Linked(b)
  {
  }

  lemma {:induction false} RunGate(b: Board, steps: seq<Step>)
    requires Gate(b) && ConfirmationsKnown(b)
    ensures Gate(RunFrom(b, steps)) && ConfirmationsKnown(RunFrom(b, steps))
  {
    if steps != [] {
      hide Gate, ConfirmationsKnown, Apply;
      GateLinked(b);
      RunGate(b, steps[..|steps| - 1]);
      StepGate(RunFrom(b, steps[..|steps| - 1]), steps[|steps| - 1]);
    }
  }

  lemma EmptyGate()
    ensures Gate(EMPTY_BOARD) && ConfirmationsKnown(EMPTY_BOARD)
  {
    DecisionChain.RunChained([]);
  }

  /**
   * The approval gate, under every interleaving of approvals, rejections, retries, crashes and
   * executions in flight: an action is approved, executed or failed exactly if its own fingerprint
   * was confirmed, whatever is running was confirmed, and a confirmed action's decision is approved.
   */
  lemma ApprovalGate(steps: seq<Step>, id: nat)
    requires id < |Run(steps).actions|
    ensures var b := Run(steps);
            && (b.actions[id].status in {Approved, Executed, Failed} <==> Confirmed(b, id))
            && (IsRunning(b, id) ==> Confirmed(b, id))
            && (Confirmed(b, id) ==> IsDecisionApproved(b, b.actions[id].fingerprint.decision)
                                     && IsSupported(b.actions[id].fingerprint.kind))
  {
    EmptyGate();
    RunGate(EMPTY_BOARD, steps);
    hide RunFrom, IsSupported, DecisionChain.Chained;
    assert RowGate(Run(steps), id);
  }

  // ----- rejected is final -----

  ghost predicate RejectedFor(b: Board, id: nat) {
    && id < |b.actions| && b.actions[id].status == Rejected
    && !IsRunning(b, id)
    && forall x :: x in b.audit && x.event == ExecutedEvent ==> x.snapshot.id != id
  }

  lemma RejectedMeans(b: Board, id: nat)
    requires Gate(b) && id < |b.actions| && b.actions[id].status == Rejected
    ensures RejectedFor(b, id)
  {
    assert RowGate(b, id);
    hide DecisionChain.Chained, RowGate;
  }

  lemma StepKeepsRejected(b: Board, s: Step, id: nat)
    requires Gate(b) && id < |b.actions| && b.actions[id].status == Rejected
    ensures id < |Apply(b, s).actions| && Apply(b, s).actions[id].status == Rejected
  {
    RejectedMeans(b, id);
    assert s.Advancing? && s.execution < |b.executions| ==> b.executions[s.execution] in b.executions;
    hide DecisionChain.Chained, RowGate, Decisions.Apply, IsSupported, Without;
  }

  /** A rejected action stays rejected, is never run, and never has an execution in its audit log, whatever happens later. */
  lemma {:induction false} RejectedIsFinal(b: Board, steps: seq<Step>, id: nat)
    requires Gate(b) && ConfirmationsKnown(b) && id < |b.actions| && b.actions[id].status == Rejected
    ensures RejectedFor(RunFrom(b, steps), id)
  {
    hide Gate, ConfirmationsKnown, Apply, RejectedFor;
    GateLinked(b);
    RunGate(b, steps);
    RejectedStays(b, steps, id);
    RejectedMeans(RunFrom(b, steps), id);
  }

  lemma {:induction false} RejectedStays(b: Board, steps: seq<Step>, id: nat)
    requires Gate(b) && ConfirmationsKnown(b) && id < |b.actions| && b.actions[id].status == Rejected
    ensures Linked(b) && id < |RunFrom(b, steps).actions| && RunFrom(b, steps).actions[id].status == Rejected
  {
    hide Gate, ConfirmationsKnown, Apply;
    GateLinked(b);
    if steps != [] {
      RejectedStays(b, steps[..|steps| - 1], id);
      RunGate(b, steps[..|steps| - 1]);
      StepKeepsRejected(RunFrom(b, steps[..|steps| - 1]), steps[|steps| - 1], id);
    }
  }
}
