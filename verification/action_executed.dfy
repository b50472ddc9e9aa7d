/** `executed` is not final while an execution of the action can still write its status; this says exactly when it is. */
module ActionExecuted {
  import opened Evaluation
  import Decisions
  import Releases
  import opened Actions

  /**
   * An execution of this action can still write its status. That includes the one that wrote `executed`:
   * when its audit entry fails, it goes on to write `failed`.
   */
  ghost predicate MayWrite(b: Board, id: nat) {
    exists k :: 0 <= k < |b.executions| && b.executions[k].action.id == id && !b.executions[k].phase.AuditingFailure?
  }

  predicate IsExecuted(b: Board, id: nat) {
    id < |b.actions| && b.actions[id].status == Executed
  }

  lemma StepKeepsExecuted(b: Board, s: Step, id: nat)
    requires Linked(b) && IsExecuted(b, id) && !MayWrite(b, id)
    ensures IsExecuted(Apply(b, s), id) && !MayWrite(Apply(b, s), id)
  {
    hide Decisions.Apply, IsSupported, Decisions.Linked;
  }

  lemma {:induction false} StaysExecuted(b: Board, steps: seq<Step>, id: nat)
    requires Linked(b) && IsExecuted(b, id) && !MayWrite(b, id)
    ensures IsExecuted(RunFrom(b, steps), id) && !MayWrite(RunFrom(b, steps), id)
  {
    hide Apply, Linked, MayWrite;
    if steps != [] {
      StaysExecuted(b, steps[..|steps| - 1], id);
      StepKeepsExecuted(RunFrom(b, steps[..|steps| - 1]), steps[|steps| - 1], id);
    }
  }

  lemma RunOne(b: Board, steps: seq<Step>, s: Step)
    requires Linked(b)
    ensures RunFrom(b, steps + [s]) == Apply(RunFrom(b, steps), s)
  {
    assert (steps + [s])[..|steps|] == steps;
  }

  function Failure(k: nat): Step { Advancing(k, false) }
  function Success(k: nat): Step { Advancing(k, true) }

  /** How a writing execution gets to write `failed`. */
  function FailingSteps(phase: Phase, k: nat): seq<Step> {
    if phase.Retrying? then [Success(k)] + [Failure(k)] + [Success(k)]
    else if phase.Failing? then [Success(k)]
    else [Failure(k)] + [Success(k)]
  }

  lemma ToFailing(b: Board, k: nat)
    requires Linked(b) && k < |b.executions| && (b.executions[k].phase.Working? || b.executions[k].phase.Auditing?)
    ensures var b' := Apply(b, Failure(k));
            k < |b'.executions| && b'.executions[k] == b.executions[k].(phase := Failing)
  {
    assert b.executions[k] in b.executions;
  }

  lemma ToFailed(b: Board, k: nat)
    requires Linked(b) && k < |b.executions| && b.executions[k].phase.Failing?
    ensures var id := b.executions[k].action.id;
            id < |b.actions| && !IsExecuted(Apply(b, Success(k)), id)
  {
    assert b.executions[k] in b.executions;
  }

  lemma ToWorking(b: Board, k: nat)
    requires Linked(b) && k < |b.executions| && b.executions[k].phase.Retrying?
    ensures var b' := Apply(b, Success(k));
            k < |b'.executions| && b'.executions[k] == b.executions[k].(phase := Working)
  {
    assert b.executions[k] in b.executions;
  }

  lemma CanFail(b: Board, k: nat)
    requires Linked(b) && k < |b.executions| && !b.executions[k].phase.AuditingFailure?
    ensures !IsExecuted(RunFrom(b, FailingSteps(b.executions[k].phase, k)), b.executions[k].action.id)
  {
    hide Apply, Linked, IsExecuted;
    var phase := b.executions[k].phase;
    assert RunFrom(b, []) == b;
    RunOne(b, [], Success(k));
    RunOne(b, [], Failure(k));
    assert [] + [Success(k)] == [Success(k)] && [] + [Failure(k)] == [Failure(k)];
    if phase.Failing? {
      ToFailed(b, k);
    } else if phase.Retrying? {
      ToWorking(b, k);
      RunOne(b, [Success(k)], Failure(k));
      ToFailing(RunFrom(b, [Success(k)]), k);
      RunOne(b, [Success(k)] + [Failure(k)], Success(k));
      ToFailed(RunFrom(b, [Success(k)] + [Failure(k)]), k);
    } else {
      ToFailing(b, k);
      RunOne(b, [Failure(k)], Success(k));
      ToFailed(RunFrom(b, [Failure(k)]), k);
    }
  }

  /**
   * From any state in which an action is executed, it stays executed on every continuation exactly if
   * no execution of it can still write its status.
   */
  lemma ExecutedFinalIff(b: Board, id: nat)
    requires Linked(b) && IsExecuted(b, id)
    ensures (forall steps :: IsExecuted(RunFrom(b, steps), id)) <==> !MayWrite(b, id)
  {
    hide IsExecuted, Linked, RunFrom;
    if MayWrite(b, id) {
      var k :| 0 <= k < |b.executions| && b.executions[k].action.id == id && !b.executions[k].phase.AuditingFailure?;
      CanFail(b, k);
      assert !IsExecuted(RunFrom(b, FailingSteps(b.executions[k].phase, k)), id);
    } else {
      forall steps ensures IsExecuted(RunFrom(b, steps), id) {
        StaysExecuted(b, steps, id);
      }
    }
  }

  // ----- runs on which it happens -----

  function Silence(): Input { Input(Contract(Increase, 0.0, 0), [], Unavailable, [], true) }

  function Proposal(): Decisions.Step {
    Decisions.Evaluating(0, "evidence", Silence(), "worker", "")
  }

  function Review(): Decisions.Step {
    Decisions.Revising(0, Decisions.Approve("reviewed"), "owner")
  }

  const FROZEN := Fingerprint(0, 2, 0, RequestMoreData, "payload", "none")

  /** A deployed release gets an approved decision, and an action is prepared for it. */
  function Prefix(): seq<Step> {
    [Deciding(Decisions.Registering(true, "owner"))] + [Deciding(Proposal())] + [Deciding(Review())]
    + [Preparing(Preparation(FROZEN, "key", "agent"))]
  }

  function Approval(): Step { Approving(0, FROZEN, "owner") }

  /** One approval; its execution writes `executed` and has its audit entry still to insert. */
  function Once(): seq<Step> {
    [Approval()] + [Success(0)]
  }

  /** Two approvals of one action: the second one passes before the first execution has written its outcome. */
  function Twice(): seq<Step> {
    [Approval()] + [Approval()] + [Success(0)] + [Failure(1)]
  }

  lemma SilenceIsInconclusive()
    ensures Evaluate(Silence()).outcome == Inconclusive
  {
    hide TrustBlocker, Blockers, Regressed;
  }

  predicate OneDecision(b: Board, status: Decisions.Status) {
    && |b.desk.decisions| == 1 && b.desk.decisions[0].status == status && b.desk.decisions[0].proposed == Inconclusive
    && b.actions == [] && b.executions == []
  }

  lemma Deployed()
    ensures Linked(EMPTY_BOARD)
    ensures var b := Apply(EMPTY_BOARD, Deciding(Decisions.Registering(true, "owner")));
            && Releases.WasDeployed(b.desk.releases, 0) && b.desk.decisions == [] && b.desk.evidence == []
            && b.actions == [] && b.executions == []
  {
    var b := Apply(EMPTY_BOARD, Deciding(Decisions.Registering(true, "owner")));
    assert b.desk.releases.log[0] in b.desk.releases.log;
  }

  lemma Proposed(b: Board)
    requires Linked(b) && Releases.WasDeployed(b.desk.releases, 0) && b.desk.decisions == [] && b.desk.evidence == []
    requires b.actions == [] && b.executions == []
    ensures OneDecision(Apply(b, Deciding(Proposal())), Decisions.Proposed)
  {
    SilenceIsInconclusive();
    hide Evaluate;
  }

  lemma Reviewed(b: Board)
    requires Linked(b) && OneDecision(b, Decisions.Proposed)
    ensures OneDecision(Apply(b, Deciding(Review())), Decisions.Approved)
  {
  }

  /** One action, on an approved decision, under its own fingerprint. */
  predicate OneAction(b: Board, status: Status) {
    && |b.actions| == 1 && b.actions[0].status == status && b.actions[0].fingerprint == FROZEN && IsDecisionApproved(b, 0)
    && forall e :: e in b.executions ==> e.action.id == 0 && e.action.fingerprint == FROZEN
  }

  lemma PrefixRun()
    ensures Linked(EMPTY_BOARD)
    ensures var b := RunFrom(EMPTY_BOARD, Prefix()); OneAction(b, Prepared) && b.executions == []
  {
    var deploy, propose, review := Deciding(Decisions.Registering(true, "owner")), Deciding(Proposal()), Deciding(Review());
    var prepare := Preparing(Preparation(FROZEN, "key", "agent"));
    Deployed();
    hide RunFrom, Decisions.Apply;
    assert RunFrom(EMPTY_BOARD, []) == EMPTY_BOARD by { RunNone(EMPTY_BOARD); }
    RunOne(EMPTY_BOARD, [], deploy);
    assert [] + [deploy] == [deploy];
    RunOne(EMPTY_BOARD, [deploy], propose);
    Proposed(RunFrom(EMPTY_BOARD, [deploy]));
    RunOne(EMPTY_BOARD, [deploy] + [propose], review);
    Reviewed(RunFrom(EMPTY_BOARD, [deploy] + [propose]));
    RunOne(EMPTY_BOARD, [deploy] + [propose] + [review], prepare);
    assert Prefix() == [deploy] + [propose] + [review] + [prepare];
  }

  lemma ApproveStarts(b: Board, status: Status)
    requires Linked(b) && OneAction(b, status) && (status == Prepared || status == Approved)
    ensures var b' := Apply(b, Approval());
            OneAction(b', Approved) && b'.executions == b.executions + [Execution(b'.actions[0], "owner", Working)]
  {
    hide Decisions.Linked;
  }

  /** An execution that works writes `executed` and goes on to its audit entry. */
  lemma WritesExecuted(b: Board, k: nat)
    requires Linked(b) && OneAction(b, Approved) && k < |b.executions| && b.executions[k].phase == Working
    ensures var b' := Apply(b, Success(k));
            && OneAction(b', Executed) && |b'.executions| == |b.executions| && b'.executions[k].phase.Auditing?
            && forall j :: 0 <= j < |b.executions| && j != k ==> b'.executions[j] == b.executions[j]
  {
    hide Decisions.Linked;
    assert b.executions[k] in b.executions;
  }

  /** The query of a working or auditing execution fails: the execution goes on to write `failed`. */
  lemma StartsFailing(b: Board, k: nat)
    requires Linked(b) && OneAction(b, Executed) && k < |b.executions|
    requires b.executions[k].phase.Working? || b.executions[k].phase.Auditing?
    ensures var b' := Apply(b, Failure(k));
            OneAction(b', Executed) && k < |b'.executions| && b'.executions[k].phase == Failing
  {
    hide Decisions.Linked;
    assert b.executions[k] in b.executions;
  }

  lemma WritesFailed(b: Board, k: nat)
    requires Linked(b) && OneAction(b, Executed) && k < |b.executions| && b.executions[k].phase == Failing
    ensures OneAction(Apply(b, Success(k)), Failed)
  {
    hide Decisions.Linked;
    assert b.executions[k] in b.executions;
  }

  lemma RunNone(b: Board)
    requires Linked(b)
    ensures RunFrom(b, []) == b
  {
  }

  lemma {:induction false} RunJoin(b: Board, xs: seq<Step>, ys: seq<Step>)
    requires Linked(b)
    ensures RunFrom(b, xs + ys) == RunFrom(RunFrom(b, xs), ys)
  {
    hide Apply, Linked;
    if ys == [] {
      assert xs + ys == xs;
    } else {
      var init := ys[..|ys| - 1];
      RunJoin(b, xs, init);
      assert (xs + ys)[..|xs + ys| - 1] == xs + init;
    }
  }

  /** A single execution: `executed` is written, its audit entry fails, and `failed` is written over it. */
  lemma SingleExecutionFails()
    ensures var b := Run(Prefix() + Once()); IsExecuted(b, 0) && |b.executions| == 1
    ensures var b := Run(Prefix() + Once() + [Failure(0)] + [Success(0)]); |b.actions| == 1 && b.actions[0].status == Failed
  {
    PrefixRun();
    RunJoin(EMPTY_BOARD, Prefix(), Once());
    var b := RunFrom(EMPTY_BOARD, Prefix());
    var more := Prefix() + Once();
    hide RunFrom, Apply, Linked, Prefix;
    RunNone(b);
    RunOne(b, [], Approval());
    assert [] + [Approval()] == [Approval()];
    RunOne(b, [Approval()], Success(0));
    ApproveStarts(b, Prepared);
    WritesExecuted(RunFrom(b, [Approval()]), 0);
    RunOne(EMPTY_BOARD, more, Failure(0));
    StartsFailing(RunFrom(EMPTY_BOARD, more), 0);
    RunOne(EMPTY_BOARD, more + [Failure(0)], Success(0));
    WritesFailed(RunFrom(EMPTY_BOARD, more + [Failure(0)]), 0);
  }

  /** Two executions: the first one writes `executed`, and the second one `failed` over it. */
  lemma SecondExecutionFails()
    ensures var b := Run(Prefix() + Twice()); IsExecuted(b, 0) && |b.executions| == 2
    ensures var b := Run(Prefix() + Twice() + [Success(1)]); |b.actions| == 1 && b.actions[0].status == Failed
  {
    PrefixRun();
    RunJoin(EMPTY_BOARD, Prefix(), Twice());
    var b := RunFrom(EMPTY_BOARD, Prefix());
    var more := Prefix() + Twice();
    hide RunFrom, Apply, Linked, Prefix;
    RunNone(b);
    RunOne(b, [], Approval());
    assert [] + [Approval()] == [Approval()];
    RunOne(b, [Approval()], Approval());
    RunOne(b, [Approval()] + [Approval()], Success(0));
    RunOne(b, [Approval()] + [Approval()] + [Success(0)], Failure(1));
    ApproveStarts(b, Prepared);
    ApproveStarts(RunFrom(b, [Approval()]), Approved);
    var b2 := RunFrom(b, [Approval()] + [Approval()]);
    WritesExecuted(b2, 0);
    StartsFailing(RunFrom(b, [Approval()] + [Approval()] + [Success(0)]), 1);
    RunOne(EMPTY_BOARD, more, Success(1));
    WritesFailed(RunFrom(EMPTY_BOARD, more), 1);
  }
}
