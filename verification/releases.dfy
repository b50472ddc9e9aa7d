/** Releases of src/services/releases.ts: registration, the transition table, and the log of status revisions. */
module Releases {
  import opened Wrappers

  datatype Status = Planned | Deployed | Observing | Decided | Cancelled

  /** `from` is None in the revision that registers the release. */
  datatype Revision = Revision(release: nat, from: Option<Status>, to: Status, actor: string)

  /** Rows are never deleted, so a release's id is its place. */
  datatype Registry = Registry(rows: seq<Status>, log: seq<Revision>)

  const NO_RELEASES := Registry([], [])

  datatype Reply = Ok | NotFound | InvalidTransition | ContractInvalid

  function Register(g: Registry, deployed: bool, actor: string): Registry {
    var status := if deployed then Deployed else Planned;
    Registry(g.rows + [status], g.log + [Revision(|g.rows|, None, status, actor)])
  }

  predicate IsAllowed(from: Status, to: Status) {
    if to == Cancelled then from == Planned || from == Deployed || from == Observing
    else (from == Planned && to == Deployed) || (from == Deployed && to == Observing) || (from == Observing && to == Decided)
  }

  /** `valid` is the verdict on the release's contract, which only observing asks for. */
  function Judge(g: Registry, id: nat, to: Status, valid: bool): Reply {
    if id >= |g.rows| then NotFound
    else if !IsAllowed(g.rows[id], to) then InvalidTransition
    else if to == Observing && !valid then ContractInvalid
    else Ok
  }

  function Moved(g: Registry, id: nat, to: Status, actor: string): Registry
    requires id < |g.rows|
  {
    Registry(g.rows[id := to], g.log + [Revision(id, Some(g.rows[id]), to, actor)])
  }

  /** `transitionRelease`: one transaction. */
  function Transition(g: Registry, id: nat, to: Status, valid: bool, actor: string): Registry {
    if Judge(g, id, to, valid) == Ok then Moved(g, id, to, actor) else g
  }

  predicate HasStatus(g: Registry, id: nat, status: Status) {
    id < |g.rows| && g.rows[id] == status
  }

  /** The release is deployed, or was before it moved on. */
  predicate WasDeployed(g: Registry, id: nat) {
    exists x :: x in g.log && x.release == id && x.to == Deployed
  }

  /** `finalizeObservedRelease`, part of the transaction that approves a decision. */
  function Finalized(g: Registry, id: nat, actor: string): Registry {
    if HasStatus(g, id, Observing) then Moved(g, id, Decided, actor) else g
  }

  // ----- the log -----

  function History(log: seq<Revision>, id: nat): seq<Revision> {
    if log == [] then []
    else History(log[..|log| - 1], id) + if log[|log| - 1].release == id then [log[|log| - 1]] else []
  }

  lemma HistoryAppend(log: seq<Revision>, r: Revision, id: nat)
    ensures History(log + [r], id) == History(log, id) + if r.release == id then [r] else []
  {
    assert (log + [r])[..|log|] == log;
  }

  /** How far a release has come. */
  function Rank(status: Status): nat {
    match status
    case Planned => 0
    case Deployed => 1
    case Observing => 2
    case Decided => 3
    case Cancelled => 3
  }

  /** A registration, then only allowed moves, each from where the one before ended; the last one ends at the row. */
  predicate Chain(status: Status, h: seq<Revision>) {
    && h != [] && h[0].from == None && (h[0].to == Planned || h[0].to == Deployed)
    && (forall i :: 0 < i < |h| ==> h[i].from == Some(h[i - 1].to) && IsAllowed(h[i - 1].to, h[i].to))
    && h[|h| - 1].to == status
  }

  ghost predicate Chained(g: Registry) {
    && (forall id :: 0 <= id < |g.rows| ==> Chain(g.rows[id], History(g.log, id)))
    && (forall id :: id >= |g.rows| ==> History(g.log, id) == [])
  }

  lemma RegisterChained(g: Registry, deployed: bool, actor: string)
    requires Chained(g)
    ensures Chained(Register(g, deployed, actor))
  {
    var g' := Register(g, deployed, actor);
    forall id: nat ensures History(g'.log, id) == History(g.log, id) + if id == |g.rows| then [g'.log[|g.log|]] else [] {
      HistoryAppend(g.log, g'.log[|g.log|], id);
    }
  }

  lemma ChainGrows(status: Status, h: seq<Revision>, r: Revision)
    requires Chain(status, h) && r.from == Some(status) && IsAllowed(status, r.to)
    ensures Chain(r.to, h + [r])
  {
    hide IsAllowed;
  }

  lemma MovedChained(g: Registry, id: nat, to: Status, actor: string)
    requires Chained(g) && id < |g.rows| && IsAllowed(g.rows[id], to)
    ensures Chained(Moved(g, id, to, actor))
  {
    var g' := Moved(g, id, to, actor);
    ChainGrows(g.rows[id], History(g.log, id), g'.log[|g.log|]);
    hide Chain, IsAllowed;
    forall i: nat ensures History(g'.log, i) == History(g.log, i) + if i == id then [g'.log[|g.log|]] else [] {
      HistoryAppend(g.log, g'.log[|g.log|], i);
    }
  }

  /** A release passes at most four statuses, because every move leads further. */
  lemma {:induction false} ChainIsShort(status: Status, h: seq<Revision>)
    requires Chain(status, h)
    ensures |h| <= 1 + Rank(status) <= 4
    decreases |h|
  {
    if |h| > 1 {
      var init := h[..|h| - 1];
      ChainIsShort(init[|init| - 1].to, init);
    }
  }
}
