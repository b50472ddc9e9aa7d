/** What decisions keep on every run: the revision chain, the approval rule, and that proposals can be approved. */
module DecisionChain {
  import opened Wrappers
  import opened Evaluation
  import opened Decisions
  import Releases

  /** The revisions of one decision, oldest first. */
  function History(log: seq<Revision>, id: nat): seq<Revision> {
    if log == [] then []
    else History(log[..|log| - 1], id) + if log[|log| - 1].decision == id then [log[|log| - 1]] else []
  }

  lemma HistoryAppend(log: seq<Revision>, r: Revision, id: nat)
    ensures History(log + [r], id) == History(log, id) + if r.decision == id then [r] else []
  {
    assert (log + [r])[..|log|] == log;
  }

  /**
   * Revisions 1 to n, each starting from the snapshot before it, the last one the row itself;
   * nothing follows an approval.
   */
  predicate Chain(d: Decision, h: seq<Revision>) {
    && |h| == d.revision >= 1
    && (forall i :: 0 <= i < |h| ==> h[i].number == i + 1 == h[i].snapshot.revision && h[i].decision == d.id)
    && h[0].previous == None && h[0].action == ProposedAction
    && (forall i :: 0 < i < |h| ==> h[i].previous == Some(h[i - 1].snapshot) && h[i].action != ProposedAction)
    && (forall i :: 0 <= i < |h| - 1 ==> h[i].snapshot.status != Approved)
    && h[|h| - 1].snapshot == d
  }

  /** What the status says about the accepted outcome, and what that needs of the evidence. */
  predicate Sound(d: Decision, e: Evidence) {
    && (d.accepted.Some? <==> d.status == Approved)
    && (d.accepted.Some? && d.accepted.value != Inconclusive ==> IsSolid(e))
    && (d.proposed != Inconclusive ==> IsSolid(e))
    && e.release == d.release
  }

  ghost predicate Chained(d: Desk) {
    && Linked(d)
    && (forall i :: 0 <= i < |d.decisions| ==> Chain(d.decisions[i], History(d.log, i)))
    && (forall i :: 0 <= i < |d.decisions| ==> Sound(d.decisions[i], d.evidence[d.decisions[i].evidence]))
    && (forall i :: i >= |d.decisions| ==> History(d.log, i) == [])
  }

  lemma PersistChained(d: Desk, release: nat, key: string, input: Input, actor: string, rationale: string)
    requires Chained(d)
    ensures Chained(Persist(d, release, key, Evaluate(input), actor, rationale))
  {
    DirectionalIsReadyAndTrusted(input);
    hide Evaluate, History;
    var d' := Persist(d, release, key, Evaluate(input), actor, rationale);
    if d' != d {
      var r := d'.log[|d.log|];
      forall i: nat ensures History(d'.log, i) == History(d.log, i) + if r.decision == i then [r] else [] {
        HistoryAppend(d.log, r, i);
      }
    }
  }

  lemma ChainGrows(d: Decision, h: seq<Revision>, c: Command, actor: string)
    requires Chain(d, h) && d.status != Approved
    ensures Chain(Reviewed(d, c), h + [Revision(d.id, d.revision + 1, ActionOf(c), actor, Some(d), Reviewed(d, c), c.rationale)])
  {
  }

  lemma ReviewSound(d: Desk, id: nat, c: Command)
    requires Linked(d) && id < |d.decisions| && Review(d, id, c) == Ok
    requires Sound(d.decisions[id], d.evidence[d.decisions[id].evidence])
    ensures d.decisions[id].status != Approved
    ensures Sound(Reviewed(d.decisions[id], c), d.evidence[d.decisions[id].evidence])
  {
  }

  lemma ReviseChained(d: Desk, id: nat, c: Command, actor: string)
    requires Chained(d)
    ensures Chained(Revise(d, id, c, actor))
  {
    var d' := Revise(d, id, c, actor);
    if Review(d, id, c) == Ok {
      ReviewSound(d, id, c);
      ChainGrows(d.decisions[id], History(d.log, id), c, actor);
      hide Review, History, Reviewed, Sound, Chain;
      var r := d'.log[|d.log|];
      forall i: nat ensures History(d'.log, i) == History(d.log, i) + if r.decision == i then [r] else [] {
        HistoryAppend(d.log, r, i);
      }
      assert Reviewed(d.decisions[id], c).id == id && Reviewed(d.decisions[id], c).evidence == d.decisions[id].evidence by {
        ReviewedKeeps(d.decisions[id], c);
      }
      assert d'.decisions[id] == Reviewed(d.decisions[id], c);
      assert Reviewed(d.decisions[id], c).revision == d.decisions[id].revision + 1 by { ReviewedKeeps(d.decisions[id], c); }
    }
  }

  lemma ReviewedKeeps(d: Decision, c: Command)
    ensures var r := Reviewed(d, c); r.id == d.id && r.evidence == d.evidence && r.revision == d.revision + 1
  {
  }

  lemma StepChained(d: Desk, s: Step)
    requires Chained(d)
    ensures Chained(Apply(d, s))
  {
    match s
    case Evaluating(release, key, input, actor, rationale) => PersistChained(d, release, key, input, actor, rationale);
    case Revising(id, command, actor) => ReviseChained(d, id, command, actor);
    case _ =>
  }

  /** On every run every decision carries its whole chain. */
  lemma {:induction false} RunChained(steps: seq<Step>)
    ensures Chained(Run(steps))
  {
    if steps == [] {
      assert forall i: nat :: History([], i) == [];
    } else {
      hide Chained;
      RunChained(steps[..|steps| - 1]);
      StepChained(Run(steps[..|steps| - 1]), steps[|steps| - 1]);
    }
  }

  /** Approved is absorbing, with its accepted outcome: nothing changes an approved decision or its history. */
  lemma ApprovedAbsorbs(d: Desk, s: Step, id: nat)
    requires Chained(d) && id < |d.decisions| && d.decisions[id].status == Approved
    ensures var d' := Apply(d, s);
            id < |d'.decisions| && d'.decisions[id] == d.decisions[id] && History(d'.log, id) == History(d.log, id)
  {
    var d' := Apply(d, s);
    hide History, Evaluate, Chain, Sound;
    if |d'.log| > |d.log| {
      HistoryAppend(d.log, d'.log[|d.log|], id);
      assert d'.log == d.log + [d'.log[|d.log|]];
    }
  }

  /** An accepted keep, fix or rollback stands on ready and trusted evidence, on every run. */
  lemma {:induction false} AcceptedNeedsEvidence(steps: seq<Step>, id: nat)
    requires id < |Run(steps).decisions|
    ensures var d := Run(steps);
            d.decisions[id].accepted.Some? && d.decisions[id].accepted.value != Inconclusive
            ==> IsSolid(d.evidence[d.decisions[id].evidence])
  {
    RunChained(steps);
    hide Run;
    assert Sound(Run(steps).decisions[id], Run(steps).evidence[Run(steps).decisions[id].evidence]);
  }

  /**
   * What evaluation proposes can be approved as proposed: on every run, approving a decision is
   * accepted exactly while it is still proposed, and then accepts the proposed outcome.
   */
  lemma {:induction false} ProposalsApprovable(steps: seq<Step>, id: nat, rationale: string, actor: string)
    requires id < |Run(steps).decisions|
    ensures var d := Run(steps);
            && (Review(d, id, Approve(rationale)) == Ok <==> d.decisions[id].status == Proposed)
            && (d.decisions[id].status == Proposed ==>
                  && Revise(d, id, Approve(rationale), actor).decisions[id].status == Approved
                  && Revise(d, id, Approve(rationale), actor).decisions[id].accepted == Some(d.decisions[id].proposed))
  {
    RunChained(steps);
    hide Run;
    assert Sound(Run(steps).decisions[id], Run(steps).evidence[Run(steps).decisions[id].evidence]);
  }

  // ----- releases -----

  predicate IsDecided(d: Desk, r: nat) { Releases.HasStatus(d.releases, r, Releases.Decided) }

  /** The step approves a decision about the release. */
  predicate Approves(d: Desk, s: Step, r: nat)
    requires Linked(d)
  {
    && s.Revising? && !s.command.Reject? && s.id < |d.decisions| && d.decisions[s.id].release == r
    && Review(d, s.id, s.command) == Ok
  }

  /** The step moves the release to decided, without any decision. */
  predicate MovesToDecided(s: Step, r: nat) {
    s.Transitioning? && s.release == r && s.to == Releases.Decided
  }

  /** The release is observed and the step ends that, one way or the other. */
  predicate Decides(d: Desk, s: Step, r: nat)
    requires Linked(d)
  {
    Releases.HasStatus(d.releases, r, Releases.Observing) && (Approves(d, s, r) || MovesToDecided(s, r))
  }

  predicate HasApproval(d: Desk, r: nat) {
    exists i :: 0 <= i < |d.decisions| && d.decisions[i].release == r && d.decisions[i].status == Approved
  }

  lemma StepDecides(d: Desk, s: Step, r: nat)
    requires Linked(d)
    ensures IsDecided(Apply(d, s), r) <==> IsDecided(d, r) || Decides(d, s, r)
  {
    hide Evaluate;
  }

  lemma StepApproves(d: Desk, s: Step, r: nat)
    requires Chained(d)
    ensures HasApproval(Apply(d, s), r) <==> HasApproval(d, r) || Approves(d, s, r)
  {
    var d' := Apply(d, s);
    hide Evaluate, Chain, Sound, History;
    if HasApproval(d, r) {
      var i :| 0 <= i < |d.decisions| && d.decisions[i].release == r && d.decisions[i].status == Approved;
      ApprovedAbsorbs(d, s, i);
    } else if Approves(d, s, r) {
      assert d'.decisions[s.id].status == Approved && d'.decisions[s.id].release == r;
    }
  }

  ghost predicate DecidedIn(steps: seq<Step>, r: nat) {
    exists i :: 0 <= i < |steps| && Decides(Run(steps[..i]), steps[i], r)
  }

  ghost predicate ApprovedIn(steps: seq<Step>, r: nat) {
    exists i :: 0 <= i < |steps| && Approves(Run(steps[..i]), steps[i], r)
  }

  /** The release was moved from observing to decided directly. */
  ghost predicate MovedIn(steps: seq<Step>, r: nat) {
    exists i :: 0 <= i < |steps| && Decides(Run(steps[..i]), steps[i], r) && MovesToDecided(steps[i], r)
  }

  lemma LastStep(steps: seq<Step>)
    requires steps != []
    ensures Run(steps) == Apply(Run(steps[..|steps| - 1]), steps[|steps| - 1])
  {
  }

  lemma DecidedLast(steps: seq<Step>, r: nat)
    requires steps != []
    ensures DecidedIn(steps, r)
       <==> DecidedIn(steps[..|steps| - 1], r) || Decides(Run(steps[..|steps| - 1]), steps[|steps| - 1], r)
  {
    hide Run, Decides;
    var init := steps[..|steps| - 1];
    assert forall i :: 0 <= i < |init| ==> init[..i] == steps[..i] && init[i] == steps[i];
    if DecidedIn(init, r) {
      var i :| 0 <= i < |init| && Decides(Run(init[..i]), init[i], r);
      assert Decides(Run(steps[..i]), steps[i], r);
    }
  }

  lemma ApprovedLast(steps: seq<Step>, r: nat)
    requires steps != []
    ensures ApprovedIn(steps, r)
       <==> ApprovedIn(steps[..|steps| - 1], r) || Approves(Run(steps[..|steps| - 1]), steps[|steps| - 1], r)
  {
    hide Run, Approves;
    var init := steps[..|steps| - 1];
    assert forall i :: 0 <= i < |init| ==> init[..i] == steps[..i] && init[i] == steps[i];
    if ApprovedIn(init, r) {
      var i :| 0 <= i < |init| && Approves(Run(init[..i]), init[i], r);
      assert Approves(Run(steps[..i]), steps[i], r);
    }
  }

  /**
   * A release is decided exactly if some step, while it was observed, approved a decision about it or
   * moved it directly.
   */
  lemma {:induction false} DecidedIff(steps: seq<Step>, r: nat)
    ensures IsDecided(Run(steps), r) <==> DecidedIn(steps, r)
  {
    if steps != [] {
      hide Apply, Decides, DecidedIn, IsDecided;
      DecidedIff(steps[..|steps| - 1], r);
      StepDecides(Run(steps[..|steps| - 1]), steps[|steps| - 1], r);
      DecidedLast(steps, r);
    }
  }

  /** No release is decided twice. */
  lemma DecidedOnce(steps: seq<Step>, r: nat, i: nat, j: nat)
    requires i < j < |steps| && Decides(Run(steps[..i]), steps[i], r)
    ensures !Decides(Run(steps[..j]), steps[j], r)
  {
    DecidedIff(steps[..j], r);
    hide Run, Approves;
    assert steps[..j][..i] == steps[..i] && steps[..j][i] == steps[i];
    assert DecidedIn(steps[..j], r);
  }

  lemma {:induction false} ApprovalIff(steps: seq<Step>, r: nat)
    ensures HasApproval(Run(steps), r) <==> ApprovedIn(steps, r)
  {
    if steps != [] {
      hide Apply, Approves, ApprovedIn, HasApproval, Chained;
      ApprovalIff(steps[..|steps| - 1], r);
      RunChained(steps[..|steps| - 1]);
      StepApproves(Run(steps[..|steps| - 1]), steps[|steps| - 1], r);
      ApprovedLast(steps, r);
    }
  }

  /**
   * A decided release usually has an approved decision about it. It has none exactly if it was moved
   * directly and no decision about it was approved before or since.
   */
  lemma DecidedWithoutApprovalIff(steps: seq<Step>, r: nat)
    ensures IsDecided(Run(steps), r) && !HasApproval(Run(steps), r) <==> MovedIn(steps, r) && !ApprovedIn(steps, r)
  {
    DecidedIff(steps, r);
    ApprovalIff(steps, r);
    hide Run, Approves, IsDecided, HasApproval;
  }

  /** From planned to decided without a single decision. */
  function Unreviewed(actor: string): seq<Step> {
    [Registering(false, actor), Transitioning(0, Releases.Deployed, true, actor),
     Transitioning(0, Releases.Observing, true, actor), Transitioning(0, Releases.Decided, true, actor)]
  }

  lemma DecidedUnreviewed(actor: string)
    ensures Run(Unreviewed(actor)).releases.rows == [Releases.Decided] && Run(Unreviewed(actor)).decisions == []
  {
    var s := Unreviewed(actor);
    assert s[..4] == s && s[..3][..2] == s[..2] && s[..4][..3] == s[..3] && s[..2][..1] == s[..1] && s[..1][..0] == [];
    assert Run([]) == EMPTY_DESK;
    assert Run(s[..1]) == Apply(Run([]), s[0]) by { LastStep(s[..1]); }
    assert Run(s[..2]) == Apply(Run(s[..1]), s[1]) by { LastStep(s[..2]); }
    assert Run(s[..3]) == Apply(Run(s[..2]), s[2]) by { LastStep(s[..3]); }
    assert Run(s[..4]) == Apply(Run(s[..3]), s[3]) by { LastStep(s[..4]); }
  }

  /** On every run a release's log is its registration and then allowed moves, four revisions at most. */
  lemma {:induction false} RunReleasesChained(steps: seq<Step>)
    ensures Releases.Chained(Run(steps).releases)
    ensures forall r :: 0 <= r < |Run(steps).releases.rows| ==> |Releases.History(Run(steps).releases.log, r)| <= 4
  {
    if steps == [] {
      assert forall r: nat :: Releases.History([], r) == [];
    } else {
      RunReleasesChained(steps[..|steps| - 1]);
      StepReleasesChained(Run(steps[..|steps| - 1]), steps[|steps| - 1]);
      LastStep(steps);
    }
    hide Run;
    var g := Run(steps).releases;
    forall r | 0 <= r < |g.rows| ensures |Releases.History(g.log, r)| <= 4 {
      Releases.ChainIsShort(g.rows[r], Releases.History(g.log, r));
    }
  }

  lemma StepReleasesChained(d: Desk, s: Step)
    requires Linked(d) && Releases.Chained(d.releases)
    ensures Releases.Chained(Apply(d, s).releases)
  {
    hide Evaluate, Persist, Releases.Chained;
    var g := d.releases;
    match s
    case Registering(deployed, actor) => Releases.RegisterChained(g, deployed, actor);
    case Transitioning(release, to, valid, actor) =>
      if Releases.Judge(g, release, to, valid) == Releases.Ok { Releases.MovedChained(g, release, to, actor); }
    case Evaluating(release, key, input, actor, rationale) => PersistKeepsReleases(d, release, key, Evaluate(input), actor, rationale);
    case Revising(id, command, actor) =>
      if id < |d.decisions| && Releases.HasStatus(g, d.decisions[id].release, Releases.Observing) {
        Releases.MovedChained(g, d.decisions[id].release, Releases.Decided, actor);
      }
  }

  lemma PersistKeepsReleases(d: Desk, release: nat, key: string, e: Evaluated, actor: string, rationale: string)
    ensures Persist(d, release, key, e, actor, rationale).releases == d.releases
  {
  }
}
