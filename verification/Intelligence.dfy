/** The decision-intelligence layer (src/durable_threads/intelligence.py).  The
    decision engine is an arbitrary source of answers; probabilities are reals. */
module Intelligence {
  import opened Common

  datatype RiskClass = R0 | R1 | R2 | R3 | R4

  function RiskRank(r: RiskClass): nat {
    match r case R0 => 0 case R1 => 1 case R2 => 2 case R3 => 3 case R4 => 4
  }

  predicate MeetsThreshold(risk: RiskClass, threshold: RiskClass) {
    RiskRank(risk) >= RiskRank(threshold)
  }

  function HigherRisk(left: RiskClass, right: RiskClass): (r: RiskClass)
    ensures MeetsThreshold(r, left) && MeetsThreshold(r, right)
    ensures r in {left, right}
  {
    if RiskRank(left) >= RiskRank(right) then left else right
  }

  /** A decision policy's certainty threshold for each risk class. */
  datatype Policy = Policy(r0: real, r1: real, r2: real, r3: real, r4: real)

  const DEFAULT_POLICY := Policy(0.70, 0.85, 0.90, 0.97, 1.00)

  function ThresholdFor(policy: Policy, risk: RiskClass): real {
    match risk
    case R0 => policy.r0 case R1 => policy.r1 case R2 => policy.r2 case R3 => policy.r3 case R4 => policy.r4
  }

  const SINGLE_WORKER := "single_worker"
  const WORKER_PLUS_REVIEW := "worker_plus_review"
  const PARALLEL_WORKERS := "parallel_workers"

  /** The engine's answers that the task assessment uses. */
  datatype TaskAnswers = TaskAnswers(risk: RiskClass, independentReview: real, shape: string)

  datatype TaskAssessment = TaskAssessment(
    finalRisk: RiskClass, executionShape: string, reviewRequired: bool, humanGateRequired: bool)

  function AssessTask(policy: Policy, heuristic: RiskClass, answers: TaskAnswers,
                      humanGateAt: RiskClass): TaskAssessment
  {
    var finalRisk := HigherRisk(heuristic, answers.risk);
    var reviewRequired :=
      MeetsThreshold(finalRisk, R3)
      || answers.independentReview >= ThresholdFor(policy, finalRisk)
      || answers.shape == WORKER_PLUS_REVIEW;
    var shape := if reviewRequired && answers.shape == SINGLE_WORKER then WORKER_PLUS_REVIEW else answers.shape;
    TaskAssessment(finalRisk, shape, reviewRequired, MeetsThreshold(finalRisk, humanGateAt))
  }

  datatype ResultAnswers = ResultAnswers(semantic: real, evidence: real, intervention: string)

  /** `intervention` is optional because the workflow reads it from a dictionary. */
  datatype ResultAssessment = ResultAssessment(
    semantic: real, evidence: real, intervention: Option<string>,
    integrationReady: bool, accepted: bool, reviewRequired: bool)

  const ACCEPT := "accept"
  const HUMAN_REVIEW := "human_review"
  const SWITCH_EXECUTOR := "switch_executor"
  const CORRECT_SAME := "correct_same"
  const STRONGER_MODEL := "stronger_model"

  lemma {:induction false} InterventionNames()
    ensures HUMAN_REVIEW !in {ACCEPT, SWITCH_EXECUTOR, CORRECT_SAME, STRONGER_MODEL, ""}
    ensures ACCEPT !in {SWITCH_EXECUTOR, CORRECT_SAME, STRONGER_MODEL, ""}
    ensures "" !in {SWITCH_EXECUTOR, CORRECT_SAME, STRONGER_MODEL}
  {
    assert HUMAN_REVIEW[0] == 'h' && ACCEPT[0] == 'a' && CORRECT_SAME[0] == 'c';
    assert SWITCH_EXECUTOR[0] == STRONGER_MODEL[0] == 's';
  }

  function AssessResult(policy: Policy, risk: RiskClass, exitCode: int, evidenceComplete: bool,
                        answers: ResultAnswers): ResultAssessment
  {
    var threshold := ThresholdFor(policy, risk);
    var deterministicPass := exitCode == 0 && evidenceComplete;
    var reviewRequired := MeetsThreshold(risk, R3) || answers.intervention == HUMAN_REVIEW;
    var integrationReady :=
      deterministicPass && answers.semantic >= threshold && answers.evidence >= threshold
      && answers.intervention == ACCEPT;
    ResultAssessment(answers.semantic, answers.evidence, Some(answers.intervention),
                     integrationReady, integrationReady && !reviewRequired, reviewRequired)
  }

  datatype Gate = GateComplete | GateReviewRequired | GateUnverified

  /** The same gate in both languages: packages/policy/src/efficiency.ts restates it. */
  function CompletionGate(ready: bool, taskReview: bool, resultReview: bool, approved: bool): (gate: Gate)
    ensures gate == GateComplete <==> ready && (taskReview || resultReview ==> approved)
    ensures gate == GateUnverified <==> !ready
  {
    if !ready then GateUnverified
    else if (taskReview || resultReview) && !approved then GateReviewRequired
    else GateComplete
  }

  /** The engine can raise the deterministic floor and can never lower it; work at
      R3 or above is always reviewed, and a reviewed task is never left on one worker. */
  lemma {:induction false} RiskFloor(policy: Policy, heuristic: RiskClass, answers: TaskAnswers,
                                     humanGateAt: RiskClass)
    ensures var t := AssessTask(policy, heuristic, answers, humanGateAt);
            && MeetsThreshold(t.finalRisk, heuristic)
            && (t.finalRisk in {R3, R4} ==> t.reviewRequired)
            && (t.reviewRequired ==> t.executionShape != SINGLE_WORKER)
            && (t.humanGateRequired <==>
                  MeetsThreshold(heuristic, humanGateAt) || MeetsThreshold(answers.risk, humanGateAt))
            && (t.executionShape == answers.shape || (t.reviewRequired && answers.shape == "single_worker"))
            && MeetsThreshold(t.finalRisk, answers.risk) && t.finalRisk in {heuristic, answers.risk}
  {
    var t := AssessTask(policy, heuristic, answers, humanGateAt);
    assert t.reviewRequired && answers.shape == SINGLE_WORKER ==> WORKER_PLUS_REVIEW[0] != SINGLE_WORKER[0];
  }

  /** Raising the deterministic floor switches task review off exactly when the higher class
      stays below R3 and the review probability reaches the lower class's threshold but not
      the higher one's: task review is not monotone in risk. */
  lemma {:induction false} ReviewLostByHigherFloor(policy: Policy, low: RiskClass, high: RiskClass,
                                                   answers: TaskAnswers,
                                                   gate: RiskClass)
    requires MeetsThreshold(high, low)
    ensures (&& AssessTask(policy, low, answers, gate).reviewRequired
             && !AssessTask(policy, high, answers, gate).reviewRequired)
       <==> (&& answers.shape != WORKER_PLUS_REVIEW
             && !MeetsThreshold(HigherRisk(high, answers.risk), R3)
             && ThresholdFor(policy, HigherRisk(low, answers.risk)) <= answers.independentReview
             && answers.independentReview < ThresholdFor(policy, HigherRisk(high, answers.risk)))
  {}

  /** A concrete loss under the default policy: at 0.8 a mechanical change is reviewed and a
      feature is not. */
  lemma {:induction false} ReviewIsNotMonotone()
    ensures var answers := TaskAnswers(R0, 0.8, PARALLEL_WORKERS);
            && AssessTask(DEFAULT_POLICY, R0, answers, R4).reviewRequired
            && !AssessTask(DEFAULT_POLICY, R1, answers, R4).reviewRequired
  {
    assert PARALLEL_WORKERS[0] != WORKER_PLUS_REVIEW[0];
  }

  /** Acceptance needs exit code zero, complete evidence and no review, and agrees with the
      completion gate. */
  lemma {:induction false} AcceptanceNeedsEvidence(policy: Policy, risk: RiskClass, exitCode: int, complete: bool,
                                                   answers: ResultAnswers)
    ensures var r := AssessResult(policy, risk, exitCode, complete, answers);
            && (r.integrationReady ==> exitCode == 0 && complete)
            && (r.accepted ==> !MeetsThreshold(risk, R3))
            && (r.accepted <==> CompletionGate(r.integrationReady, false, r.reviewRequired, false) == GateComplete)
  {}

  /** Everything ready, or accepted, at the higher class is so at the lower one. */
  ghost predicate ReadinessFalls(policy: Policy, low: RiskClass, high: RiskClass) {
    forall exitCode: int, complete: bool, answers: ResultAnswers ::
      var h := AssessResult(policy, high, exitCode, complete, answers);
      var l := AssessResult(policy, low, exitCode, complete, answers);
      (h.integrationReady ==> l.integrationReady) && (h.accepted ==> l.accepted)
  }

  /** Result acceptance, unlike task review, is monotone in risk - exactly between classes
      whose thresholds the policy puts in order, as the default policy does for all. */
  lemma {:induction false} AcceptanceIsMonotone(policy: Policy, low: RiskClass, high: RiskClass)
    requires MeetsThreshold(high, low)
    ensures ReadinessFalls(policy, low, high) <==> ThresholdFor(policy, low) <= ThresholdFor(policy, high)
    ensures ReadinessFalls(DEFAULT_POLICY, low, high)
  {
    var at := ThresholdFor(policy, high);
    var answers := ResultAnswers(at, at, ACCEPT);
    InterventionNames();
    assert AssessResult(policy, high, 0, true, answers).integrationReady;
    assert AssessResult(policy, low, 0, true, answers).integrationReady <==> ThresholdFor(policy, low) <= at;
  }

  /** What the result policy demands: a clean exit with verified evidence, the answer `accept`
      and both certainties at the threshold; and a reviewer from R3 up, or on request. */
  lemma {:induction false} ResultPolicyMeans(policy: Policy, risk: RiskClass, exitCode: int, complete: bool,
                                             answers: ResultAnswers)
    ensures var r, least := AssessResult(policy, risk, exitCode, complete, answers), ThresholdFor(policy, risk);
            && (r.integrationReady <==> exitCode == 0 && complete && answers.intervention == "accept"
                                        && answers.semantic >= least && answers.evidence >= least)
            && (r.accepted <==> r.integrationReady && risk !in {R3, R4})
            && (r.reviewRequired <==> risk in {R3, R4} || answers.intervention == "human_review")
            && r.intervention == Some(answers.intervention)
            && r.semantic == answers.semantic && r.evidence == answers.evidence
  {
    InterventionNames();
  }

  /** At least as certain on both counts, and otherwise the same answers. */
  predicate SurerThan(a: ResultAnswers, b: ResultAnswers) {
    a.intervention == b.intervention && a.semantic >= b.semantic && a.evidence >= b.evidence
  }

  /** More certainty never takes readiness or acceptance away, under any policy; and under the
      default one, equal certainties suffice from these values on. */
  lemma {:induction false} CertaintyHelps(policy: Policy, risk: RiskClass, exitCode: int, complete: bool,
                                          surer: ResultAnswers, answers: ResultAnswers, p: real)
    requires SurerThan(surer, answers)
    ensures var r, r' := AssessResult(policy, risk, exitCode, complete, answers),
                         AssessResult(policy, risk, exitCode, complete, surer);
            (r.integrationReady ==> r'.integrationReady) && (r.accepted ==> r'.accepted)
    ensures AssessResult(DEFAULT_POLICY, risk, 0, true, ResultAnswers(p, p, "accept")).integrationReady
       <==> p >= match risk case R0 => 0.7 case R1 => 0.85 case R2 => 0.9 case R3 => 0.97 case R4 => 1.0
  {}
}
