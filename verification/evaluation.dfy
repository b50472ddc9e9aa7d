/** How src/services/evaluation.ts turns measurements into blockers, readiness, trust and a proposed outcome. */
module Evaluation {
  import opened Wrappers
  import Sequences

  datatype Outcome = Keep | Fix | Rollback | Inconclusive
  datatype Direction = Increase | Decrease | StayWithinRange

  /** What a metric query gave: `relative` is the rounded relative change, None when the baseline is zero. */
  datatype Measurement =
    | Unavailable
    | Measured(events: nat, actors: nat, registeredCoverage: real, distinctIdCoverage: real, relative: Option<real>)

  datatype Contract = Contract(direction: Direction, minimumEffect: real, minimumSample: nat)

  /** `issues` are the codes of the contract validation, and `complete` says whether the observation window is over. */
  datatype Input = Input(contract: Contract, issues: seq<string>, primary: Measurement, guardrails: seq<Measurement>, complete: bool)

  datatype Evaluated = Evaluated(blockers: seq<string>, ready: bool, trusted: bool, outcome: Outcome)

  // ----- blockers -----

  predicate TrustBlocker(code: string) {
    || Sequences.Contains(code, "untrusted") || Sequences.Contains(code, "inactive") || Sequences.Contains(code, "incompatible")
    || Sequences.Contains(code, "unknown_") || Sequences.Contains(code, "registered") || Sequences.Contains(code, "distinct_id")
    || code == "metric_evaluation_failed"
  }

  function MetricBlockers(m: Measurement): seq<string> {
    if m.Unavailable? then ["metric_evaluation_failed"] else []
  }

  function AllMetricBlockers(ms: seq<Measurement>): seq<string> {
    if ms == [] then [] else AllMetricBlockers(ms[..|ms| - 1]) + MetricBlockers(ms[|ms| - 1])
  }

  /** An unavailable metric counts as an empty aggregate. */
  function Events(m: Measurement): nat { if m.Unavailable? then 0 else m.events }
  function Actors(m: Measurement): nat { if m.Unavailable? then 0 else m.actors }
  function Relative(m: Measurement): Option<real> { if m.Unavailable? then None else m.relative }

  function When(condition: bool, code: string): seq<string> { if condition then [code] else [] }

  function Blockers(input: Input): seq<string> {
    var p := input.primary;
    input.issues + MetricBlockers(p) + AllMetricBlockers(input.guardrails)
    + When(Events(p) == 0, "primary_metric_no_observations")
    + When(Events(p) > 0 && p.registeredCoverage < 1.0, "primary_metric_unregistered_evidence")
    + When(Events(p) > 0 && p.distinctIdCoverage < 0.9, "distinct_id_coverage_low")
    + When(Actors(p) < input.contract.minimumSample, "minimum_sample_not_reached")
    + When(!input.complete, "observation_window_incomplete")
  }

  // ----- outcome -----

  predicate Regressed(input: Input) {
    exists m :: m in input.guardrails && Relative(m).Some? && Relative(m).value < -input.contract.minimumEffect
  }

  function Abs(x: real): real { if x < 0.0 then -x else x }

  function ProposeOutcome(ready: bool, direction: Direction, minimumEffect: real, relative: Option<real>, regressed: bool): Outcome {
    if !ready || relative.None? then Inconclusive
    else if regressed then Fix
    else if direction.StayWithinRange? then (if Abs(relative.value) <= minimumEffect then Keep else Fix)
    else
      var aligned := if direction.Increase? then relative.value else -relative.value;
      if aligned >= minimumEffect then Keep else if aligned <= -minimumEffect then Rollback else Fix
  }

  function Evaluate(input: Input): Evaluated {
    var blockers := Blockers(input);
    Evaluated(
      blockers,
      blockers == [],
      !exists code :: code in blockers && TrustBlocker(code),
      ProposeOutcome(blockers == [], input.contract.direction, input.contract.minimumEffect, Relative(input.primary), Regressed(input)))
  }

  method PushWhen(blockers: seq<string>, condition: bool, code: string) returns (r: seq<string>)
    ensures r == blockers + When(condition, code)
  {
    r := blockers;
    if condition { r := r + [code]; }
  }

  method PushMetric(blockers: seq<string>, m: Measurement) returns (r: seq<string>)
    ensures r == blockers + MetricBlockers(m)
  {
    r := blockers;
    if m.Unavailable? { r := r + ["metric_evaluation_failed"]; }
  }

  method PushGuardrails(blockers: seq<string>, guardrails: seq<Measurement>) returns (r: seq<string>)
    ensures r == blockers + AllMetricBlockers(guardrails)
  {
    hide MetricBlockers;
    r := blockers;
    for i := 0 to |guardrails|
      invariant r == blockers + AllMetricBlockers(guardrails[..i])
    {
      assert guardrails[..i + 1][..i] == guardrails[..i];
      r := PushMetric(r, guardrails[i]);
    }
    assert guardrails[..|guardrails|] == guardrails;
  }

  /** The computation of `evaluateRelease`, which pushes its blockers one after the other. */
  method EvaluateRelease(input: Input) returns (result: Evaluated)
    ensures result == Evaluate(input)
  {
    hide TrustBlocker, ProposeOutcome, When, MetricBlockers, AllMetricBlockers, Regressed;
    var p := input.primary;
    var blockers := PushMetric(input.issues, p);
    blockers := PushGuardrails(blockers, input.guardrails);
    blockers := PushWhen(blockers, Events(p) == 0, "primary_metric_no_observations");
    blockers := PushWhen(blockers, Events(p) > 0 && p.registeredCoverage < 1.0, "primary_metric_unregistered_evidence");
    blockers := PushWhen(blockers, Events(p) > 0 && p.distinctIdCoverage < 0.9, "distinct_id_coverage_low");
    blockers := PushWhen(blockers, Actors(p) < input.contract.minimumSample, "minimum_sample_not_reached");
    blockers := PushWhen(blockers, !input.complete, "observation_window_incomplete");
    var ready := |blockers| == 0;
    var trusted := !exists code :: code in blockers && TrustBlocker(code);
    var outcome := ProposeOutcome(ready, input.contract.direction, input.contract.minimumEffect, Relative(p), Regressed(input));
    result := Evaluated(blockers, ready, trusted, outcome);
  }

  // ----- what the proposal means -----

  lemma {:induction false} NoneUnavailable(ms: seq<Measurement>)
    ensures AllMetricBlockers(ms) == [] <==> forall m :: m in ms ==> m.Measured?
  {
    if ms != [] {
      NoneUnavailable(ms[..|ms| - 1]);
      assert ms == ms[..|ms| - 1] + [ms[|ms| - 1]];
      assert ms[|ms| - 1] in ms;
    }
  }

  /** Evidence is ready exactly under these conditions. */
  lemma ReadyIff(input: Input)
    ensures Evaluate(input).ready <==>
              && input.primary.Measured? && input.primary.events > 0 && input.primary.registeredCoverage >= 1.0
              && input.primary.distinctIdCoverage >= 0.9 && input.primary.actors >= input.contract.minimumSample
              && input.complete && input.issues == [] && forall m :: m in input.guardrails ==> m.Measured?
  {
    hide TrustBlocker, ProposeOutcome;
    NoneUnavailable(input.guardrails);
  }

  /** A directional proposal is only made on evidence that is ready, and ready evidence is trusted. */
  lemma DirectionalIsReadyAndTrusted(input: Input)
    ensures !Evaluate(input).outcome.Inconclusive? ==> Evaluate(input).ready
    ensures Evaluate(input).ready ==> Evaluate(input).trusted
  {
    hide TrustBlocker, Blockers;
  }

  /** Rollback is proposed exactly for a movement of at least the meaningful effect against the declared direction. */
  lemma RollbackIff(input: Input)
    requires input.contract.minimumEffect >= 0.0
    ensures Evaluate(input).outcome == Rollback <==>
              && Evaluate(input).ready && input.primary.Measured? && input.primary.relative.Some?
              && (forall m :: m in input.guardrails && m.Measured? && m.relative.Some? ==> m.relative.value >= -input.contract.minimumEffect)
              && var change, effect := input.primary.relative.value, input.contract.minimumEffect;
                 match input.contract.direction
                 case Increase => change < 0.0 && change <= -effect
                 case Decrease => change > 0.0 && change >= effect
                 case StayWithinRange => false
  {
    ReadyIff(input);
    hide TrustBlocker, Blockers;
  }

  // ----- the outcome, condition by condition -----

  /** Nothing is concluded exactly when the evidence is not ready or the baseline of the primary metric is zero. */
  lemma InconclusiveIff(input: Input)
    ensures Evaluate(input).outcome == Inconclusive <==>
              !Evaluate(input).ready || (input.primary.Measured? && input.primary.relative.None?)
  {
    ReadyIff(input);
    hide TrustBlocker, Blockers, Regressed;
  }

  /** Keep is proposed exactly for a movement of at least the meaningful effect in the declared direction, or within the range. */
  lemma KeepIff(input: Input)
    ensures Evaluate(input).outcome == Keep <==>
              && Evaluate(input).ready && input.primary.Measured? && input.primary.relative.Some?
              && (forall m :: m in input.guardrails && m.Measured? && m.relative.Some? ==> m.relative.value >= -input.contract.minimumEffect)
              && var change, effect := input.primary.relative.value, input.contract.minimumEffect;
                 match input.contract.direction
                 case Increase => change >= effect
                 case Decrease => change <= -effect
                 case StayWithinRange => -effect <= change <= effect
  {
    ReadyIff(input);
    hide TrustBlocker, Blockers;
  }

  /** Fix is proposed exactly when a guardrail fell by more than the effect, or the primary metric did not move enough, or left its range. */
  lemma FixIff(input: Input)
    ensures Evaluate(input).outcome == Fix <==>
              && Evaluate(input).ready && input.primary.Measured? && input.primary.relative.Some?
              && ((exists m :: m in input.guardrails && m.Measured? && m.relative.Some? && m.relative.value < -input.contract.minimumEffect)
                  || var change, effect := input.primary.relative.value, input.contract.minimumEffect;
                     match input.contract.direction
                     case Increase => -effect < change < effect
                     case Decrease => -effect < change < effect
                     case StayWithinRange => change < -effect || effect < change)
  {
    ReadyIff(input);
    hide TrustBlocker, Blockers;
  }

  /** A part occurs in a text at some place. */
  lemma {:induction false} ContainsIff(s: string, part: string)
    ensures Sequences.Contains(s, part) <==> exists i :: 0 <= i <= |s| && part <= s[i..]
  {
    if part <= s {
      assert part <= s[0..];
    } else if s != "" {
      ContainsIff(s[1..], part);
      if i :| 0 <= i <= |s| && part <= s[i..] {
        assert s[0..] == s;
        assert s[1..][i - 1..] == s[i..];
      }
      if i :| 0 <= i <= |s| - 1 && part <= s[1..][i..] {
        assert s[i + 1..] == s[1..][i..];
      }
    }
  }

  const TRUST_PARTS := {"untrusted", "inactive", "incompatible", "unknown_", "registered", "distinct_id"}

  /** Evidence is trusted exactly when no blocker is a failed evaluation or has a part that tells of distrust. */
  lemma TrustedIff(input: Input)
    ensures Evaluate(input).trusted <==>
              forall code :: code in Evaluate(input).blockers ==>
                code != "metric_evaluation_failed" && forall part, i :: part in TRUST_PARTS && 0 <= i <= |code| ==> !(part <= code[i..])
  {
    hide Blockers, Sequences.Contains, ProposeOutcome;
    forall code, part ensures Sequences.Contains(code, part) <==> exists i :: 0 <= i <= |code| && part <= code[i..] {
      ContainsIff(code, part);
    }
    forall code ensures TrustBlocker(code) <==> code == "metric_evaluation_failed" || exists part :: part in TRUST_PARTS && Sequences.Contains(code, part) {
      assert TRUST_PARTS == {"untrusted", "inactive", "incompatible", "unknown_", "registered", "distinct_id"};
    }
  }

  lemma {:induction false} MetricsFailed(ms: seq<Measurement>, code: string)
    ensures code in AllMetricBlockers(ms) <==> code == "metric_evaluation_failed" && exists m :: m in ms && m.Unavailable?
  {
    if ms != [] {
      MetricsFailed(ms[..|ms| - 1], code);
      assert ms == ms[..|ms| - 1] + [ms[|ms| - 1]];
    }
  }

  /** Each blocker is there exactly for its reason. */
  lemma BlockersIff(input: Input, code: string)
    ensures code in Evaluate(input).blockers <==>
              || code in input.issues
              || (code == "metric_evaluation_failed" && (input.primary.Unavailable? || exists m :: m in input.guardrails && m.Unavailable?))
              || (code == "primary_metric_no_observations" && (input.primary.Unavailable? || input.primary.events == 0))
              || (code == "primary_metric_unregistered_evidence"
                  && input.primary.Measured? && input.primary.events > 0 && input.primary.registeredCoverage < 1.0)
              || (code == "distinct_id_coverage_low"
                  && input.primary.Measured? && input.primary.events > 0 && input.primary.distinctIdCoverage < 0.9)
              || (code == "minimum_sample_not_reached"
                  && (if input.primary.Measured? then input.primary.actors else 0) < input.contract.minimumSample)
              || (code == "observation_window_incomplete" && !input.complete)
  {
    MetricsFailed(input.guardrails, code);
    hide TrustBlocker, ProposeOutcome, AllMetricBlockers;
  }
}
