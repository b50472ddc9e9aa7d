/** Decision actions of src/services/actions.ts: each query outside a transaction is a step of its own. */
module Actions {
  import opened Wrappers
  import opened Evaluation
  import Decisions

  datatype Kind = DraftPrompt | FlagRollback | ScheduleObservation | RequestMoreData | GenericWebhook | CreateIssue | OpenDraftPr

  datatype Status = Prepared | Approved | Executed | Rejected | Failed

  /** Stands for the digest by what it is taken of. */
  datatype Fingerprint = Fingerprint(decision: nat, revision: nat, evidence: nat, kind: Kind, payload: string, undo: string)

  datatype Action = Action(
    id: nat,
    status: Status,
    fingerprint: Fingerprint,
    key: string,
    preparedBy: string,
    approvedBy: Option<string>,
    result: Option<string>,
    error: Option<string>)

  datatype Event = PreparedEvent | ApprovedEvent | ExecutedEvent | RejectedEvent | FailedEvent | RetriedEvent

  datatype Audit = Audit(event: Event, actor: string, snapshot: Action)

  /** Where a running `retryAction` or `executeApproved` is suspended. */
  datatype Phase = Retrying | Working | Auditing(done: Action) | Failing | AuditingFailure(done: Action)

  datatype Execution = Execution(action: Action, actor: string, phase: Phase)

  /** `confirmations` only records which fingerprint was presented for which approved action. */
  datatype Board = Board(
    desk: Decisions.Desk,
    actions: seq<Action>,
    audit: seq<Audit>,
    executions: seq<Execution>,
    confirmations: seq<(nat, Fingerprint)>)

  const EMPTY_BOARD := Board(Decisions.EMPTY_DESK, [], [], [], [])

  predicate IsSupported(kind: Kind) { kind != CreateIssue && kind != OpenDraftPr }

  // ----- prepare -----

  datatype Preparation = Preparation(fingerprint: Fingerprint, key: string, actor: string)

  function WithKey(actions: seq<Action>, key: string): (i: int)
    ensures i == -1 || (0 <= i < |actions| && actions[i].key == key)
    ensures i == -1 ==> forall a :: a in actions ==> a.key != key
  {
    if actions == [] then -1
    else if actions[0].key == key then 0
    else var i := WithKey(actions[1..], key); if i == -1 then -1 else i + 1
  }

  function NewAction(b: Board, p: Preparation): Action {
    Action(|b.actions|, Prepared, p.fingerprint, p.key, p.actor, None, None, None)
  }

  /** A known idempotency key changes nothing, whether the payload is the frozen one or not. */
  function Prepare(b: Board, p: Preparation): Board {
    if p.fingerprint.decision >= |b.desk.decisions| || WithKey(b.actions, p.key) != -1 then b
    else
      var a := NewAction(b, p);
      b.(actions := b.actions + [a], audit := b.audit + [Audit(PreparedEvent, p.actor, a)])
  }

  // ----- approve -----

  datatype Verdict = Accepted | AlreadyExecuted | NotFound | Mismatch | NotApprovable | Unsupported | DecisionRequired

  predicate IsDecisionApproved(b: Board, decision: nat) {
    decision < |b.desk.decisions| && b.desk.decisions[decision].status == Decisions.Approved
  }

  function Judge(b: Board, id: nat, fingerprint: Fingerprint): Verdict {
    if id >= |b.actions| then NotFound
    else
      var a := b.actions[id];
      if a.fingerprint != fingerprint then Mismatch
      else if a.status == Executed then AlreadyExecuted
      else if a.status == Rejected then NotApprovable
      else if !IsSupported(a.fingerprint.kind) then Unsupported
      else if !IsDecisionApproved(b, a.fingerprint.decision) then DecisionRequired
      else Accepted
  }

  function ApprovedRow(a: Action, actor: string): Action {
    a.(status := Approved, approvedBy := Some(actor), error := None)
  }

  /** The transaction of `approveAction`; the execution starts right after it. */
  function Approve(b: Board, id: nat, fingerprint: Fingerprint, actor: string): Board {
    if Judge(b, id, fingerprint) != Accepted then b
    else
      var a := ApprovedRow(b.actions[id], actor);
      b.(actions := b.actions[id := a],
         audit := b.audit + [Audit(ApprovedEvent, actor, a)],
         executions := b.executions + [Execution(a, actor, Working)],
         confirmations := b.confirmations + [(id, fingerprint)])
  }

  // ----- reject and retry -----

  function RejectedRow(a: Action, rationale: string): Action {
    a.(status := Rejected, result := Some(rationale))
  }

  function Reject(b: Board, id: nat, rationale: string, actor: string): Board {
    if id >= |b.actions| || b.actions[id].status != Prepared then b
    else
      var a := RejectedRow(b.actions[id], rationale);
      b.(actions := b.actions[id := a], audit := b.audit + [Audit(RejectedEvent, actor, a)])
  }

  /** `retryAction` reads the row without a lock. */
  function Retry(b: Board, id: nat, actor: string): Board {
    if id >= |b.actions| || b.actions[id].status != Failed then b
    else b.(executions := b.executions + [Execution(b.actions[id], actor, Retrying)])
  }

  // ----- execute -----

  function ExecutedRow(a: Action): Action { a.(status := Executed, error := None) }
  function FailedRow(a: Action): Action { a.(status := Failed, error := Some("failed")) }

  function Without(es: seq<Execution>, k: nat): seq<Execution>
    requires k < |es|
  {
    es[..k] + es[k + 1..]
  }

  function InPhase(b: Board, k: nat, phase: Phase): Board
    requires k < |b.executions|
  {
    b.(executions := b.executions[k := b.executions[k].(phase := phase)])
  }

  function Ended(b: Board, k: nat): Board
    requires k < |b.executions|
  {
    b.(executions := Without(b.executions, k))
  }

  function Logged(b: Board, k: nat, event: Event, snapshot: Action): Board
    requires k < |b.executions|
  {
    b.(audit := b.audit + [Audit(event, b.executions[k].actor, snapshot)])
  }

  /** The next query of a running execution; `ok` says whether it, and the effect before it, succeeds. */
  function Advance(b: Board, k: nat, ok: bool): Board
    requires k < |b.executions| && b.executions[k].action.id < |b.actions|
  {
    var e := b.executions[k];
    var id := e.action.id;
    match e.phase
    case Retrying => if ok then InPhase(Logged(b, k, RetriedEvent, e.action), k, Working) else Ended(b, k)
    case Working =>
      if ok && IsSupported(e.action.fingerprint.kind) then
        var a := ExecutedRow(b.actions[id]);
        InPhase(b.(actions := b.actions[id := a]), k, Auditing(a))
      else InPhase(b, k, Failing)
    case Auditing(a) => if ok then Ended(Logged(b, k, ExecutedEvent, a), k) else InPhase(b, k, Failing)
    case Failing =>
      if ok then
        var a := FailedRow(b.actions[id]);
        InPhase(b.(actions := b.actions[id := a]), k, AuditingFailure(a))
      else Ended(b, k)
    case AuditingFailure(a) => if ok then Ended(Logged(b, k, FailedEvent, a), k) else Ended(b, k)
  }

  // ----- runs -----

  datatype Step =
    | Preparing(preparation: Preparation)
    | Approving(id: nat, fingerprint: Fingerprint, actor: string)
    | Rejecting(id: nat, rationale: string, actor: string)
    | RetryingAction(id: nat, actor: string)
    | Advancing(execution: nat, ok: bool)
    | Crashing(execution: nat)
    | Deciding(step: Decisions.Step)

  /** Rows know their place, and executions run on existing actions. */
  predicate Linked(b: Board) {
    && Decisions.Linked(b.desk)
    && (forall i :: 0 <= i < |b.actions| ==> b.actions[i].id == i)
    && (forall e :: e in b.executions ==> e.action.id < |b.actions|)
  }

  function Apply(b: Board, s: Step): Board
    requires Linked(b)
  {
    match s
    case Preparing(p) => Prepare(b, p)
    case Approving(id, fingerprint, actor) => Approve(b, id, fingerprint, actor)
    case Rejecting(id, rationale, actor) => Reject(b, id, rationale, actor)
    case RetryingAction(id, actor) => Retry(b, id, actor)
    case Advancing(k, ok) => if k < |b.executions| then Advance(b, k, ok) else b
    case Crashing(k) => if k < |b.executions| then Ended(b, k) else b
    case Deciding(step) => b.(desk := Decisions.Apply(b.desk, step))
  }

  lemma WithoutMembers(es: seq<Execution>, k: nat)
    requires k < |es|
    ensures forall e :: e in Without(es, k) ==> e in es
  {
  }

  lemma ApplyLinked(b: Board, s: Step)
    requires Linked(b)
    ensures Linked(Apply(b, s))
  {
    match s
    case Advancing(k, ok) =>
      if k < |b.executions| { WithoutMembers(b.executions, k); }
    case Crashing(k) =>
      if k < |b.executions| { WithoutMembers(b.executions, k); }
    case Deciding(step) => Decisions.ApplyLinked(b.desk, step);
    case _ =>
  }

  function RunFrom(b: Board, steps: seq<Step>): (r: Board)
    requires Linked(b)
    ensures Linked(r)
  {
    if steps == [] then b
    else
      var before := RunFrom(b, steps[..|steps| - 1]);
      ApplyLinked(before, steps[|steps| - 1]);
      Apply(before, steps[|steps| - 1])
  }

  function Run(steps: seq<Step>): Board {
    RunFrom(EMPTY_BOARD, steps)
  }

  // ----- the tables as they are changed in place -----

  class ActionTables {
    const decisions: Decisions.DecisionTables
    var actions: seq<Action>
    var audit: seq<Audit>
    var executions: seq<Execution>
    ghost var confirmations: seq<(nat, Fingerprint)>

    ghost function Model(): Board
      reads this, decisions
    {
      Board(decisions.Model(), actions, audit, executions, confirmations)
    }

    constructor (tables: Decisions.DecisionTables)
      ensures decisions == tables && actions == [] && audit == [] && executions == [] && confirmations == []
    {
      decisions := tables;
      actions, audit, executions, confirmations := [], [], [], [];
    }

    method AppendAudit(event: Event, actor: string, a: Action)
      modifies `audit
      ensures audit == old(audit) + [Audit(event, actor, a)]
    {
      audit := audit + [Audit(event, actor, a)];
    }

    method PrepareAction(p: Preparation) returns (idempotent: bool, conflict: bool)
      modifies this
      ensures Model() == Prepare(old(Model()), p)
      ensures idempotent || conflict ==> Model() == old(Model())
    {
      if p.fingerprint.decision >= |decisions.decisions| { return false, false; }
      var i := WithKey(actions, p.key);
      if i != -1 { return actions[i].fingerprint == p.fingerprint, actions[i].fingerprint != p.fingerprint; }
      var a := Action(|actions|, Prepared, p.fingerprint, p.key, p.actor, None, None, None);
      actions := actions + [a];
      AppendAudit(PreparedEvent, p.actor, a);
      return false, false;
    }

    method ApproveAction(id: nat, fingerprint: Fingerprint, actor: string) returns (verdict: Verdict)
      modifies this
      ensures verdict == Judge(old(Model()), id, fingerprint)
      ensures Model() == Approve(old(Model()), id, fingerprint, actor)
    {
      if id >= |actions| { return NotFound; }
      var a := actions[id];
      if a.fingerprint != fingerprint { return Mismatch; }
      if a.status == Executed { return AlreadyExecuted; }
      if a.status != Prepared && a.status != Approved && a.status != Failed { return NotApprovable; }
      if a.fingerprint.kind == CreateIssue || a.fingerprint.kind == OpenDraftPr { return Unsupported; }
      if a.fingerprint.decision >= |decisions.decisions|
         || decisions.decisions[a.fingerprint.decision].status != Decisions.Approved { return DecisionRequired; }
      a := a.(status := Approved, approvedBy := Some(actor), error := None);
      actions := actions[id := a];
      AppendAudit(ApprovedEvent, actor, a);
      confirmations := confirmations + [(id, fingerprint)];
      executions := executions + [Execution(a, actor, Working)];
      return Accepted;
    }

    method RejectAction(id: nat, rationale: string, actor: string)
      modifies this
      ensures Model() == Reject(old(Model()), id, rationale, actor)
    {
      if id >= |actions| || actions[id].status != Prepared { return; }
      var a := actions[id].(status := Rejected, result := Some(rationale));
      actions := actions[id := a];
      AppendAudit(RejectedEvent, actor, a);
    }

    method RetryAction(id: nat, actor: string)
      modifies this
      ensures Model() == Retry(old(Model()), id, actor)
    {
      if id >= |actions| || actions[id].status != Failed { return; }
      executions := executions + [Execution(actions[id], actor, Retrying)];
    }

    /** One query of `executeApproved`, or of the retry before it. */
    method ExecuteNext(k: nat, ok: bool)
      requires k < |executions| && executions[k].action.id < |actions|
      modifies this
      ensures Model() == Advance(old(Model()), k, ok)
    {
      hide IsSupported;
      var e := executions[k];
      var id := e.action.id;
      match e.phase
      case Retrying =>
        if ok {
          AppendAudit(RetriedEvent, e.actor, e.action);
          executions := executions[k := e.(phase := Working)];
        } else {
          executions := Without(executions, k);
        }
      case Working =>
        if ok && IsSupported(e.action.fingerprint.kind) {
          actions := actions[id := actions[id].(status := Executed, error := None)];
          executions := executions[k := e.(phase := Auditing(actions[id]))];
        } else {
          executions := executions[k := e.(phase := Failing)];
        }
      case Auditing(a) =>
        if ok {
          AppendAudit(ExecutedEvent, e.actor, a);
          executions := Without(executions, k);
        } else {
          executions := executions[k := e.(phase := Failing)];
        }
      case Failing =>
        if ok {
          actions := actions[id := actions[id].(status := Failed, error := Some("failed"))];
          executions := executions[k := e.(phase := AuditingFailure(actions[id]))];
        } else {
          executions := Without(executions, k);
        }
      case AuditingFailure(a) =>
        if ok { AppendAudit(FailedEvent, e.actor, a); }
        executions := Without(executions, k);
    }
  }
}
