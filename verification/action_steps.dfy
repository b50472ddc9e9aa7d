/** What every step does to decision actions, their audit log and their executions, and the answer to every approval. */
module ActionSteps {
  import opened Wrappers
  import opened Actions
  import Decisions

  /** Row `id` is now `a`, and all others are what they were. */
  predicate IsWritten(b: Board, t: Board, id: nat, a: Action) {
    id < |b.actions| && t.actions == b.actions[id := a]
  }

  /** The kinds that are carried out inside the platform. */
  predicate IsInternal(kind: Kind) {
    kind == DraftPrompt || kind == FlagRollback || kind == ScheduleObservation || kind == RequestMoreData || kind == GenericWebhook
  }

  /** The answer to an approval, in the order in which its conditions are looked at. */
  lemma ApprovalIff(b: Board, id: nat, f: Fingerprint)
    ensures Judge(b, id, f) == NotFound <==> id >= |b.actions|
    ensures Judge(b, id, f) == Mismatch <==> id < |b.actions| && b.actions[id].fingerprint != f
    ensures Judge(b, id, f) == AlreadyExecuted <==> id < |b.actions| && b.actions[id].fingerprint == f && b.actions[id].status == Executed
    ensures Judge(b, id, f) == NotApprovable <==> id < |b.actions| && b.actions[id].fingerprint == f && b.actions[id].status == Rejected
    ensures Judge(b, id, f) == Unsupported <==> IsCandidate(b, id, f) && !IsInternal(f.kind)
    ensures Judge(b, id, f) == DecisionRequired <==> IsCandidate(b, id, f) && IsInternal(f.kind) && !IsSettled(b, f.decision)
    ensures Judge(b, id, f) == Accepted <==> IsCandidate(b, id, f) && IsInternal(f.kind) && IsSettled(b, f.decision)
  {
  }

  /** The confirmed action is prepared, approved or failed. */
  predicate IsCandidate(b: Board, id: nat, f: Fingerprint) {
    && id < |b.actions| && b.actions[id].fingerprint == f
    && (b.actions[id].status == Prepared || b.actions[id].status == Approved || b.actions[id].status == Failed)
  }

  predicate IsSettled(b: Board, decision: nat) {
    decision < |b.desk.decisions| && b.desk.decisions[decision].status == Decisions.Approved
  }

  /** Execution `k` is over; the others go on. */
  predicate IsOver(b: Board, t: Board, k: nat) {
    && k < |b.executions| && |t.executions| == |b.executions| - 1
    && forall i :: 0 <= i < |t.executions| ==> t.executions[i] == b.executions[if i < k then i else i + 1]
  }

  predicate IsNow(b: Board, t: Board, k: nat, phase: Phase) {
    k < |b.executions| && t.executions == b.executions[k := Execution(b.executions[k].action, b.executions[k].actor, phase)]
  }

  predicate IsLogged(b: Board, t: Board, k: nat, event: Event, a: Action) {
    k < |b.executions| && t.audit == b.audit + [Audit(event, b.executions[k].actor, a)]
  }

  /** One query of a running execution. */
  predicate Advances(b: Board, t: Board, k: nat, ok: bool)
    requires k < |b.executions| && b.executions[k].action.id < |b.actions|
  {
    var e := b.executions[k];
    var row := b.actions[e.action.id];
    && t.desk == b.desk && t.confirmations == b.confirmations
    && match e.phase
       case Retrying =>
         t.actions == b.actions
         && if ok then IsLogged(b, t, k, RetriedEvent, e.action) && IsNow(b, t, k, Working) else t.audit == b.audit && IsOver(b, t, k)
       case Working =>
         t.audit == b.audit
         && if ok && IsInternal(e.action.fingerprint.kind) then
              var done := row.(status := Executed, error := None);
              IsWritten(b, t, e.action.id, done) && IsNow(b, t, k, Auditing(done))
            else t.actions == b.actions && IsNow(b, t, k, Failing)
       case Auditing(done) =>
         t.actions == b.actions
         && if ok then IsLogged(b, t, k, ExecutedEvent, done) && IsOver(b, t, k) else t.audit == b.audit && IsNow(b, t, k, Failing)
       case Failing =>
         t.audit == b.audit
         && if ok then
              var failed := row.(status := Failed, error := Some("failed"));
              IsWritten(b, t, e.action.id, failed) && IsNow(b, t, k, AuditingFailure(failed))
            else t.actions == b.actions && IsOver(b, t, k)
       case AuditingFailure(failed) =>
         t.actions == b.actions && IsOver(b, t, k) && if ok then IsLogged(b, t, k, FailedEvent, failed) else t.audit == b.audit
  }

  ghost predicate Follows(b: Board, s: Step, t: Board)
    requires Linked(b)
  {
    match s
    case Preparing(p) =>
      if p.fingerprint.decision >= |b.desk.decisions| || exists a :: a in b.actions && a.key == p.key then t == b
      else
        var a := Action(|b.actions|, Prepared, p.fingerprint, p.key, p.actor, None, None, None);
        t == b.(actions := b.actions + [a], audit := b.audit + [Audit(PreparedEvent, p.actor, a)])
    case Approving(id, f, actor) =>
      if !(IsCandidate(b, id, f) && IsInternal(f.kind) && IsSettled(b, f.decision)) then t == b
      else
        var a := b.actions[id].(status := Approved, approvedBy := Some(actor), error := None);
        t == b.(actions := b.actions[id := a], audit := b.audit + [Audit(ApprovedEvent, actor, a)],
                executions := b.executions + [Execution(a, actor, Working)], confirmations := b.confirmations + [(id, f)])
    case Rejecting(id, rationale, actor) =>
      if id >= |b.actions| || b.actions[id].status != Prepared then t == b
      else
        var a := b.actions[id].(status := Rejected, result := Some(rationale));
        t == b.(actions := b.actions[id := a], audit := b.audit + [Audit(RejectedEvent, actor, a)])
    case RetryingAction(id, actor) =>
      if id >= |b.actions| || b.actions[id].status != Failed then t == b
      else t == b.(executions := b.executions + [Execution(b.actions[id], actor, Retrying)])
    case Advancing(k, ok) => if k >= |b.executions| then t == b else Advances(b, t, k, ok)
    case Crashing(k) =>
      if k >= |b.executions| then t == b
      else IsOver(b, t, k) && t == b.(executions := t.executions)
    case Deciding(step) => t == b.(desk := Decisions.Apply(b.desk, step))
  }

  lemma Prepares(b: Board, p: Preparation)
    requires Linked(b)
    ensures Follows(b, Preparing(p), Prepare(b, p))
  {
  }

  lemma AdvanceFollows(b: Board, k: nat, ok: bool)
    requires k < |b.executions| && b.executions[k].action.id < |b.actions|
    ensures Advances(b, Advance(b, k, ok), k, ok)
  {
    assert forall e: Kind :: IsSupported(e) <==> IsInternal(e);
    hide IsSupported, IsInternal;
  }

  lemma StepFollows(b: Board, s: Step)
    requires Linked(b)
    ensures Follows(b, s, Apply(b, s))
  {
    hide Advances, Advance, Judge;
    match s
    case Preparing(p) => Prepares(b, p);
    case Approving(id, f, actor) => ApprovalIff(b, id, f);
    case Advancing(k, ok) => if k < |b.executions| { AdvanceFollows(b, k, ok); }
    case _ =>
  }

  /** On every run: what the last step did. */
  lemma RunFollows(steps: seq<Step>)
    requires steps != []
    ensures Follows(Run(steps[..|steps| - 1]), steps[|steps| - 1], Run(steps))
  {
    hide Follows, Apply;
    StepFollows(Run(steps[..|steps| - 1]), steps[|steps| - 1]);
  }
}
