/** What every run of the policy loop keeps, for both editions and every history. */
module WorkflowTheorems {
  import opened Common
  import opened Intelligence
  import opened TaskWorkflow
  import opened CommandTrace

  // ------------------------------------------------------------- vocabulary

  /** Released by the latest decision of the first activation that brought one after
      the wait began: nothing sent before the wait counts. */
  ghost predicate ReleasedByNewDecision(h: History, w: Wait) {
    && w.begin <= w.release < |h|
    && h[w.release].signals != []
    && w.decision == Last(h[w.release].signals)
    && forall i :: w.begin <= i < w.release ==> h[i].signals == []
  }

  /** Each wait begins after the decision that released the one before it. */
  ghost predicate WaitsInOrder(h: History, waits: seq<Wait>, end: nat) {
    && (forall i :: 0 <= i < |waits| ==> ReleasedByNewDecision(h, waits[i]) && waits[i].release < end)
    && (forall i, j :: 0 <= i < j < |waits| ==> waits[i].release < waits[j].begin)
  }

  ghost predicate RoundOk(r: RoundLog) {
    && r.providers != [] && ResultsOf(r.results, r.providers)
    && (forall p :: p in r.providers ==> p in r.routes)
    && (forall i, j :: 0 <= i < j < |r.providers| ==> r.providers[i] != r.providers[j])
    && |r.providers| <= |r.routes|
    && (r.routes[0] != "" ==> r.providers[0] == r.routes[0])
  }

  lemma {:induction false} DistinctKeepsFirst(e: Edition, routes: seq<string>)
    requires routes != [] && routes[0] != ""
    ensures Distinct(e, routes) != [] && Distinct(e, routes)[0] == routes[0]
  {
    if |routes| > 1 {
      DistinctKeepsFirst(e, routes[..|routes| - 1]);
    } else {
      assert routes[..0] == [];
    }
  }

  function BestOf(r: RoundLog): AttemptResult
    requires r.results != []
  {
    Best(r.results)
  }

  function VerdictOf(e: Edition, task: TaskInput, ta: TaskAssessment, r: RoundLog): Verdict
    requires r.results != []
  {
    Decide(e, ta, BestOf(r), task.waitForReview)
  }

  predicate Continues(v: Verdict) {
    v in {Switch, CorrectSame, Stronger}
  }

  function FirstRequest(task: TaskInput): Request {
    Request(task.effort, [], task.preferred)
  }

  /** The request after a round, as its intervention left it. */
  function NextRequest(e: Edition, task: TaskInput, ta: TaskAssessment, r: RoundLog): Request
    requires r.results != []
  {
    Intervene(r.request, BestOf(r), VerdictOf(e, task, ta, r))
  }

  /** A round that ended in a retry, and the round that the retry asked for. */
  predicate Follows(e: Edition, task: TaskInput, ta: TaskAssessment, r: RoundLog, next: RoundLog) {
    && r.results != []
    && Continues(VerdictOf(e, task, ta, r))
    && next.request == NextRequest(e, task, ta, r)
  }

  ghost predicate Chained(e: Edition, task: TaskInput, ta: TaskAssessment, rounds: seq<RoundLog>) {
    && |rounds| <= task.maxAttempts
    && (forall k :: 0 <= k < |rounds| ==> RoundOk(rounds[k]))
    && (rounds != [] ==> rounds[0].request == FirstRequest(task))
    && (forall j, k :: 0 <= j && k == j + 1 < |rounds| ==> Follows(e, task, ta, rounds[j], rounds[k]))
  }

  function Flatten(rounds: seq<RoundLog>): seq<AttemptResult> {
    if rounds == [] then [] else Flatten(rounds[..|rounds| - 1]) + Last(rounds).results
  }

  /** The last wait was opened after the last round's children had reported. */
  predicate ApprovedAfterLastRound(log: Log) {
    log.waits != [] && Last(log.waits).rounds == |log.rounds| && Last(log.waits).decision.approved
  }

  /** What it takes to complete: a verified best attempt, and an approval if review is needed. */
  predicate Authorized(ta: TaskAssessment, log: Log) {
    && log.rounds != [] && Last(log.rounds).results != []
    && IntegrationReady(BestOf(Last(log.rounds)))
    && (ReviewNeeded(ta, BestOf(Last(log.rounds))) ==> ApprovedAfterLastRound(log))
  }

  // -------------------------------------------------------------- invariant

  ghost predicate LoopInv(e: Edition, h: History, task: TaskInput, ta: TaskAssessment, s: Loop) {
    && s.pos <= |h|
    && s.round == |s.log.rounds|
    && s.attempts == Flatten(s.log.rounds)
    && Chained(e, task, ta, s.log.rounds)
    && (s.log.rounds == [] ==> s.request == FirstRequest(task))
    && (s.log.rounds != [] ==>
          && Continues(VerdictOf(e, task, ta, Last(s.log.rounds)))
          && s.request == NextRequest(e, task, ta, Last(s.log.rounds)))
    && WaitsInOrder(h, s.log.waits, s.pos)
    && (forall i :: 0 <= i < |s.log.waits| ==> s.log.waits[i].rounds == 0)
  }

  ghost predicate ResultOk(ta: TaskAssessment, log: Log, r: TaskResult) {
    && r.assessment == ta && r.finalRisk == ta.finalRisk
    && r.attempts == Flatten(log.rounds)
    && (r.status == Complete <==> Authorized(ta, log))
    && (r.status == Complete ==> r.selected == Some(BestOf(Last(log.rounds)).provider))
    && (r.selected.None? <==> log.rounds == [])
  }

  ghost predicate RunInv(e: Edition, h: History, task: TaskInput, ta: TaskAssessment, before: seq<Wait>, run: Run) {
    && Chained(e, task, ta, run.log.rounds)
    && WaitsInOrder(h, run.log.waits, |h|)
    && before <= run.log.waits && |run.log.waits| <= |before| + 1
    && (|run.log.waits| > |before| ==> Last(run.log.waits).rounds == |run.log.rounds| > 0)
    && (run.outcome.Finished? ==> ResultOk(ta, run.log, run.outcome.result))
  }

  lemma {:induction false} WaitsExtend(h: History, waits: seq<Wait>, p: nat, w: Wait)
    requires WaitsInOrder(h, waits, p) && ReleasedByNewDecision(h, w) && p <= w.begin
    ensures WaitsInOrder(h, waits + [w], w.release + 1)
  {}

  /** The loop state right after the children of a round have reported. */
  ghost predicate MidInv(e: Edition, h: History, task: TaskInput, ta: TaskAssessment, s: Loop) {
    && s.pos <= |h|
    && s.round == |s.log.rounds| > 0
    && s.attempts == Flatten(s.log.rounds)
    && Chained(e, task, ta, s.log.rounds)
    && RoundOk(Last(s.log.rounds))
    && s.request == Last(s.log.rounds).request
    && WaitsInOrder(h, s.log.waits, s.pos)
    && (forall i :: 0 <= i < |s.log.waits| ==> s.log.waits[i].rounds == 0)
  }

  /** A round that asks the reviewer ends the run with exactly one more wait. */
  lemma {:induction false} AskKeeps(e: Edition, h: History, task: TaskInput, ta: TaskAssessment, s: Loop,
                                    ifApproved: Status)
    requires MidInv(e, h, task, ta, s)
    requires VerdictOf(e, task, ta, Last(s.log.rounds)) == AskReviewer(ifApproved)
    ensures var step := Conclude(h, ta, s, BestOf(Last(s.log.rounds)), AskReviewer(ifApproved));
            step.Done? && RunInv(e, h, task, ta, s.log.waits, step.run)
  {
    match AwaitSignal(h, s.pos)
    case None =>
    case Some(q) => WaitsExtend(h, s.log.waits, s.pos, Wait(s.pos, q, Last(h[q].signals), |s.log.rounds|));
  }

  /** A round that accepts or stops ends the run without a wait. */
  lemma {:induction false} StopKeeps(e: Edition, h: History, task: TaskInput, ta: TaskAssessment, s: Loop,
                                     verdict: Verdict)
    requires MidInv(e, h, task, ta, s)
    requires verdict == VerdictOf(e, task, ta, Last(s.log.rounds)) && verdict in {Accept, StopForReview}
    ensures var step := Conclude(h, ta, s, BestOf(Last(s.log.rounds)), verdict);
            step.Done? && RunInv(e, h, task, ta, s.log.waits, step.run)
  {}

  lemma {:induction false} RetryKeeps(e: Edition, h: History, task: TaskInput, ta: TaskAssessment, s: Loop,
                                      verdict: Verdict)
    requires MidInv(e, h, task, ta, s)
    requires verdict == VerdictOf(e, task, ta, Last(s.log.rounds)) && Continues(verdict)
    ensures var step := Conclude(h, ta, s, BestOf(Last(s.log.rounds)), verdict);
            step.Again? && LoopInv(e, h, task, ta, step.loop) && step.loop.log.waits == s.log.waits
  {}

  lemma {:induction false} ChainedSnoc(e: Edition, task: TaskInput, ta: TaskAssessment, rounds: seq<RoundLog>,
                                       r: RoundLog)
    requires Chained(e, task, ta, rounds) && RoundOk(r) && |rounds| < task.maxAttempts
    requires if rounds == [] then r.request == FirstRequest(task) else Follows(e, task, ta, Last(rounds), r)
    ensures Chained(e, task, ta, rounds + [r])
  {}

  /** The children's reports take the loop invariant to the mid-round invariant. */
  lemma {:induction false} ChildrenKeep(e: Edition, h: History, task: TaskInput, ta: TaskAssessment, s: Loop, log: Log,
                     routes: seq<string>, results: seq<AttemptResult>, next: nat)
    requires LoopInv(e, h, task, ta, s) && s.round < task.maxAttempts && s.pos <= next <= |h|
    requires log.waits == s.log.waits && log.rounds == s.log.rounds
    requires Distinct(e, routes) != [] && ResultsOf(results, Distinct(e, routes))
    ensures MidInv(e, h, task, ta, AfterChildren(s, log, routes, Distinct(e, routes), results, next))
  {
    var s' := AfterChildren(s, log, routes, Distinct(e, routes), results, next);
    if routes[0] != "" {
      DistinctKeepsFirst(e, routes);
    }
    ChainedSnoc(e, task, ta, s.log.rounds, Last(s'.log.rounds));
    assert s'.log.rounds[..|s.log.rounds|] == s.log.rounds;
  }

  ghost predicate StepInv(e: Edition, h: History, task: TaskInput, ta: TaskAssessment, before: seq<Wait>, step: Step) {
    match step
    case Done(run) => RunInv(e, h, task, ta, before, run)
    case Again(s) => LoopInv(e, h, task, ta, s) && s.log.waits == before
  }

  lemma {:induction false} ConcludeKeeps(e: Edition, h: History, task: TaskInput, ta: TaskAssessment, s: Loop)
    requires MidInv(e, h, task, ta, s)
    ensures var best := BestOf(Last(s.log.rounds));
            StepInv(e, h, task, ta, s.log.waits, Conclude(h, ta, s, best, Decide(e, ta, best, task.waitForReview)))
  {
    var verdict := VerdictOf(e, task, ta, Last(s.log.rounds));
    match verdict
    case AskReviewer(ifApproved) => AskKeeps(e, h, task, ta, s, ifApproved);
    case Accept => StopKeeps(e, h, task, ta, s, verdict);
    case StopForReview => StopKeeps(e, h, task, ta, s, verdict);
    case _ => RetryKeeps(e, h, task, ta, s, verdict);
  }

  lemma {:induction false} ProvidersKeep(e: Edition, h: History, task: TaskInput, ta: TaskAssessment, s: Loop, log: Log,
                      routes: seq<string>, p: nat)
    requires LoopInv(e, h, task, ta, s) && s.round < task.maxAttempts && s.pos <= p <= |h|
    requires log.waits == s.log.waits && log.rounds == s.log.rounds && Distinct(e, routes) != []
    ensures StepInv(e, h, task, ta, s.log.waits, RunProviders(e, h, task, ta, s, log, routes, p))
  {
    var providers := Distinct(e, routes);
    var log' := Issue(log, StartCommands(s.round + 1, providers, s.request.effort));
    match AwaitChildren(h, p, providers, EmptySlots(|providers|))
    case Pending => BlockedKeeps(e, h, task, ta, s, Run(Blocked, log'));
    case Raised => BlockedKeeps(e, h, task, ta, s, Run(Aborted, log'));
    case Got(results, q) =>
      ChildrenKeep(e, h, task, ta, s, log', routes, results, q);
      ConcludeKeeps(e, h, task, ta, AfterChildren(s, log', routes, providers, results, q));
  }

  /** A run that is blocked, aborted or out of executors ends as the loop left it. */
  lemma {:induction false} BlockedKeeps(e: Edition, h: History, task: TaskInput, ta: TaskAssessment, s: Loop, run: Run)
    requires LoopInv(e, h, task, ta, s)
    requires run.log.waits == s.log.waits && run.log.rounds == s.log.rounds
    requires run.outcome.Finished? ==> run.outcome.result == GaveUp(ta, s.attempts)
    ensures RunInv(e, h, task, ta, s.log.waits, run)
  {
    if s.log.rounds != [] {
      assert s.attempts == Flatten(s.log.rounds[..|s.log.rounds| - 1]) + Last(s.log.rounds).results;
    }
  }

  /** What a round makes of its routing answer. */
  function Answer(e: Edition, h: History, task: TaskInput, ta: TaskAssessment, s: Loop, log: Log,
                  r: Awaited<seq<string>>): Step
    requires r.Got? ==> s.pos <= r.next <= |h|
  {
    match r
    case Pending => Done(Run(Blocked, log))
    case Raised => Done(Run(Aborted, log))
    case Got(routes, p) =>
      if Distinct(e, routes) == [] then Done(Run(Finished(GaveUp(ta, s.attempts)), Answered(log, routes)))
      else RunProviders(e, h, task, ta, s, Answered(log, routes), routes, p)
  }

  lemma {:induction false} RoundIsAnswer(e: Edition, h: History, task: TaskInput, ta: TaskAssessment, s: Loop)
    requires s.pos <= |h|
    ensures OneRound(e, h, task, ta, s)
         == Answer(e, h, task, ta, s, Issue(s.log, [Route(s.request)]), AwaitRoutes(h, s.pos))
  {}

  lemma {:induction false} RoundKeeps(e: Edition, h: History, task: TaskInput, ta: TaskAssessment, s: Loop)
    requires LoopInv(e, h, task, ta, s) && s.round < task.maxAttempts
    ensures StepInv(e, h, task, ta, s.log.waits, OneRound(e, h, task, ta, s))
  {
    var log := Issue(s.log, [Route(s.request)]);
    match AwaitRoutes(h, s.pos)
    case Pending => BlockedKeeps(e, h, task, ta, s, Run(Blocked, log));
    case Raised => BlockedKeeps(e, h, task, ta, s, Run(Aborted, log));
    case Got(routes, p) =>
      if Distinct(e, routes) == [] {
        BlockedKeeps(e, h, task, ta, s, Run(Finished(GaveUp(ta, s.attempts)), Answered(log, routes)));
      } else {
        ProvidersKeep(e, h, task, ta, s, Answered(log, routes), routes, p);
      }
  }

  lemma {:induction false} RoundsKeep(e: Edition, h: History, task: TaskInput, ta: TaskAssessment, s: Loop)
    requires LoopInv(e, h, task, ta, s)
    ensures RunInv(e, h, task, ta, s.log.waits, Rounds(e, h, task, ta, s))
    decreases task.maxAttempts - s.round
  {
    if s.round < task.maxAttempts {
      RoundKeeps(e, h, task, ta, s);
      var step := OneRound(e, h, task, ta, s);
      if step.Again? {
        RoundsKeep(e, h, task, ta, step.loop);
      }
    } else {
      BlockedKeeps(e, h, task, ta, s, Run(Finished(GaveUp(ta, s.attempts)), s.log));
    }
  }

  // ------------------------------------------------------- theorems on runs

  /** The assessment that a history delivers to the run, if any. */
  function AssessmentIn(h: History): Awaited<TaskAssessment> {
    AwaitAssessment(h, 0)
  }

  /** Before the first round: no wait, or the consequence gate's. */
  lemma {:induction false} FirstLoopInv(e: Edition, h: History, task: TaskInput, ta: TaskAssessment, p: nat, log: Log)
    requires p <= |h| && WaitsInOrder(h, log.waits, p) && log.rounds == []
    requires forall i :: 0 <= i < |log.waits| ==> log.waits[i].rounds == 0
    ensures LoopInv(e, h, task, ta, FirstLoop(task, p, log))
  {}

  /** The wait that the consequence gate opens at `p`, once it is released. */
  function GateWait(h: History, p: nat): (r: seq<Wait>)
    requires p <= |h|
    ensures |r| <= 1 && (r != [] ==> r[0].release < |h|)
  {
    match AwaitSignal(h, p)
    case None => []
    case Some(q) => [Wait(p, q, Last(h[q].signals), 0)]
  }

  function GateLog(gate: seq<Wait>): Log {
    Log([Assess, BeginWait], gate, [], [])
  }

  lemma {:induction false} GateWaitFresh(h: History, p: nat)
    requires p <= |h| && GateWait(h, p) != []
    ensures WaitsInOrder(h, GateWait(h, p), GateWait(h, p)[0].release + 1)
  {
    WaitsExtend(h, [], p, GateWait(h, p)[0]);
    assert [] + [GateWait(h, p)[0]] == GateWait(h, p);
  }

  lemma {:induction false} GateReview(h: History, p: nat)
    requires p <= |h| && GateWait(h, p) != []
    ensures var gate := GateWait(h, p);
            Review(h, p, STARTED) == Released(GateLog(gate), gate[0].decision, gate[0].release + 1)
  {}

  predicate GatePassed(gate: seq<Wait>) {
    gate != [] && gate[0].decision.approved
  }

  /** The loop state behind an approved gate. */
  function LoopBehind(task: TaskInput, gate: seq<Wait>): Loop
    requires gate != []
  {
    FirstLoop(task, gate[0].release + 1, GateLog(gate))
  }

  lemma {:induction false} GateRelease(h: History, p: nat, task: TaskInput)
    returns (log: Log, decision: ReviewDecision, next: nat)
    requires p <= |h| && GatePassed(GateWait(h, p))
    ensures next <= |h| && decision.approved && Review(h, p, STARTED) == Released(log, decision, next)
    ensures FirstLoop(task, next, log) == LoopBehind(task, GateWait(h, p))
  {
    var gate := GateWait(h, p);
    GateReview(h, p);
    log, decision, next := GateLog(gate), gate[0].decision, gate[0].release + 1;
  }

  lemma {:induction false} BehindGate(e: Edition, h: History, task: TaskInput, ta: TaskAssessment, p: nat, log: Log,
                                      decision: ReviewDecision, next: nat)
    requires p <= |h| && next <= |h| && ta.humanGateRequired && decision.approved
    requires Review(h, p, STARTED) == Released(log, decision, next)
    ensures AfterAssessment(e, h, task, ta, p) == Rounds(e, h, task, ta, FirstLoop(task, next, log))
  {}

  lemma {:induction false} GatePasses(e: Edition, h: History, task: TaskInput, ta: TaskAssessment, p: nat)
    requires p <= |h| && ta.humanGateRequired && GatePassed(GateWait(h, p))
    ensures AfterAssessment(e, h, task, ta, p) == Rounds(e, h, task, ta, LoopBehind(task, GateWait(h, p)))
  {
    var log, decision, next := GateRelease(h, p, task);
    BehindGate(e, h, task, ta, p, log, decision, next);
  }

  lemma {:induction false} GateStops(e: Edition, h: History, task: TaskInput, ta: TaskAssessment, p: nat)
    requires p <= |h| && ta.humanGateRequired && !GatePassed(GateWait(h, p))
    ensures var run := AfterAssessment(e, h, task, ta, p);
            && run.log == GateLog(GateWait(h, p))
            && (run.outcome.Finished? ==>
                  exists note :: run.outcome.result == TaskResult(Rejected, ta.finalRisk, None, ta, [], note))
  {
    if GateWait(h, p) != [] {
      GateReview(h, p);
    }
  }

  lemma {:induction false} BehindGateKeeps(e: Edition, h: History, task: TaskInput, ta: TaskAssessment, p: nat,
                                           run: Run)
    requires p <= |h| && GatePassed(GateWait(h, p)) && run == Rounds(e, h, task, ta, LoopBehind(task, GateWait(h, p)))
    ensures RunInv(e, h, task, ta, GateWait(h, p), run)
  {
    var gate := GateWait(h, p);
    GateWaitFresh(h, p);
    FirstLoopInv(e, h, task, ta, gate[0].release + 1, GateLog(gate));
    RoundsKeep(e, h, task, ta, LoopBehind(task, gate));
  }

  lemma {:induction false} AtGateKeeps(e: Edition, h: History, task: TaskInput, ta: TaskAssessment, p: nat, run: Run)
    requires p <= |h| && run.log == GateLog(GateWait(h, p))
    requires run.outcome.Finished? ==>
               exists note :: run.outcome.result == TaskResult(Rejected, ta.finalRisk, None, ta, [], note)
    ensures RunInv(e, h, task, ta, GateWait(h, p), run)
  {
    if GateWait(h, p) != [] {
      GateWaitFresh(h, p);
    }
  }

  lemma {:induction false} GatedKeeps(e: Edition, h: History, task: TaskInput, ta: TaskAssessment, p: nat)
    requires p <= |h| && ta.humanGateRequired
    ensures RunInv(e, h, task, ta, GateWait(h, p), AfterAssessment(e, h, task, ta, p))
  {
    if GatePassed(GateWait(h, p)) {
      GatePasses(e, h, task, ta, p);
      BehindGateKeeps(e, h, task, ta, p, AfterAssessment(e, h, task, ta, p));
    } else {
      GateStops(e, h, task, ta, p);
      AtGateKeeps(e, h, task, ta, p, AfterAssessment(e, h, task, ta, p));
    }
  }

  /** Everything a run past its assessment keeps. */
  lemma {:induction false} AssessedKeeps(e: Edition, h: History, task: TaskInput, ta: TaskAssessment, p: nat)
    requires p <= |h|
    ensures RunInv(e, h, task, ta, if ta.humanGateRequired then GateWait(h, p) else [],
                   AfterAssessment(e, h, task, ta, p))
  {
    if ta.humanGateRequired {
      GatedKeeps(e, h, task, ta, p);
    } else {
      FirstLoopInv(e, h, task, ta, p, STARTED);
      RoundsKeep(e, h, task, ta, FirstLoop(task, p, STARTED));
    }
  }

  /** A finished run is `complete` exactly when its last round's best attempt exited with
      zero, has verified evidence and is integration-ready, and - whenever the task or
      that attempt needs review - a wait opened after that round was released by an
      approval.  The selected provider is that attempt's. */
  lemma {:induction false} CompletionAuthority(e: Edition, h: History, task: TaskInput)
    ensures var run := Execute(e, h, task);
            run.outcome.Finished? ==>
              var r := run.outcome.result;
              && (r.status == Complete <==> Authorized(r.assessment, run.log))
              && (r.status == Complete ==> r.selected == Some(BestOf(Last(run.log.rounds)).provider))
              && r.attempts == Flatten(run.log.rounds)
              && AssessmentIn(h).Got? && r.assessment == AssessmentIn(h).value
  {
    match AwaitAssessment(h, 0)
    case Got(ta, p) => AssessedKeeps(e, h, task, ta, p);
    case _ =>
  }

  /** Work at R3 or R4 completes only after a reviewer's approval of the executed result. */
  lemma {:induction false} CriticalWorkIsReviewed(e: Edition, h: History, task: TaskInput, policy: Policy,
                                                  floor: RiskClass, answers: TaskAnswers,
                               gateAt: RiskClass)
    requires AssessmentIn(h).Got? && AssessmentIn(h).value == AssessTask(policy, floor, answers, gateAt)
    requires MeetsThreshold(floor, R3) || MeetsThreshold(answers.risk, R3)
    ensures var run := Execute(e, h, task);
            run.outcome.Finished? && run.outcome.result.status == Complete ==>
              Authorized(run.outcome.result.assessment, run.log) && ApprovedAfterLastRound(run.log)
  {
    CompletionAuthority(e, h, task);
    RiskFloor(policy, floor, answers, gateAt);
  }

  /** Every released wait was released by a decision that arrived after it began, one decision
      releases one wait, and only the first wait can precede execution: any other one was
      opened after the last round had reported. */
  ghost predicate FreshWaits(h: History, log: Log) {
    && WaitsInOrder(h, log.waits, |h|)
    && (forall i :: 0 <= i < |log.waits| && log.waits[i].rounds == 0 ==> i == 0)
    && (forall i :: 0 <= i < |log.waits| && log.waits[i].rounds > 0 ==>
          i == |log.waits| - 1 && log.waits[i].rounds == |log.rounds|)
  }

  lemma {:induction false} WaitsAreFresh(e: Edition, h: History, task: TaskInput, ta: TaskAssessment, before: seq<Wait>,
                                         run: Run)
    requires RunInv(e, h, task, ta, before, run)
    requires |before| <= 1 && forall i :: 0 <= i < |before| ==> before[i].rounds == 0
    ensures FreshWaits(h, run.log)
  {
    var waits := run.log.waits;
    forall i | 0 <= i < |before| ensures waits[i].rounds == 0 {
      assert waits[i] == before[i];
    }
  }

  /** With signals arriving anywhere, no approval is stale.  At most two waits are opened, and
      all of them have been released but one that the run is blocked on. */
  lemma {:induction false} NoStaleApproval(e: Edition, h: History, task: TaskInput)
    ensures var run := Execute(e, h, task);
            && FreshWaits(h, run.log)
            && Openings(run.log.commands) <= 2
            && Openings(run.log.commands) == |run.log.waits| + if Waiting(run) then 1 else 0
  {
    RunTraced(false, e, h, task);
    RunWaitsAreFresh(e, h, task);
  }

  lemma {:induction false} RunWaitsAreFresh(e: Edition, h: History, task: TaskInput)
    ensures FreshWaits(h, Execute(e, h, task).log)
  {
    match AwaitAssessment(h, 0)
    case Got(ta, p) =>
      AssessedKeeps(e, h, task, ta, p);
      var before := if ta.humanGateRequired then GateWait(h, p) else [];
      WaitsAreFresh(e, h, task, ta, before, AfterAssessment(e, h, task, ta, p));
    case _ =>
  }

  /** Behind the consequence gate the wait comes before every routing request and every child,
      and none of those is issued unless that wait was released by an approval. */
  lemma {:induction false} GateComesFirst(e: Edition, h: History, task: TaskInput)
    requires AssessmentIn(h).Got? && AssessmentIn(h).value.humanGateRequired
    ensures var log := Execute(e, h, task).log;
            && [Assess, BeginWait] <= log.commands
            && (log.commands != [Assess, BeginWait] ==>
                  log.waits != [] && log.waits[0].rounds == 0 && log.waits[0].decision.approved)
  {
    var ta, p := AssessmentIn(h).value, AssessmentIn(h).next;
    RunTraced(false, e, h, task);
    GatedKeeps(e, h, task, ta, p);
    if !GatePassed(GateWait(h, p)) {
      GateStops(e, h, task, ta, p);
    }
  }

  /** Each round's request is what the previous round's intervention made it. */
  lemma {:induction false} RoundsAreChained(e: Edition, h: History, task: TaskInput)
    ensures AssessmentIn(h).Got? ==> Chained(e, task, AssessmentIn(h).value, Execute(e, h, task).log.rounds)
    ensures AssessmentIn(h).Got? || Execute(e, h, task).log.rounds == []
  {
    match AwaitAssessment(h, 0)
    case Got(ta, p) => AssessedKeeps(e, h, task, ta, p);
    case _ =>
  }

  // ------------------------------------------------------- one round by hand

  /** One child, whose report arrives next. */
  lemma {:induction false} SingleChild(h: History, p: nat, name: string, report: ChildReport)
    requires p < |h| && h[p].job == ChildDone(0, report)
    ensures AwaitChildren(h, p, [name], EmptySlots(1)) == Got([AttemptOf(name, report)], p + 1)
    ensures Best([AttemptOf(name, report)]) == AttemptOf(name, report)
  {
    var best := AttemptOf(name, report);
    assert EmptySlots(1)[0] == None;
    assert EmptySlots(1)[0 := Some(best)] == [Some(best)];
    assert Filled([Some(best)]) == [best];
    assert AwaitChildren(h, p + 1, [name], [Some(best)]) == Got([best], p + 1);
  }

  /** One provider routed at the loop's position, whose report arrives next. */
  lemma {:induction false} SingleRound(e: Edition, h: History, task: TaskInput, ta: TaskAssessment, s: Loop,
                                       name: string, report: ChildReport)
    requires s.pos + 2 <= |h| && name != ""
    requires h[s.pos].job == Routed([name]) && h[s.pos + 1].job == ChildDone(0, report)
    ensures var best := AttemptOf(name, report);
            exists s': Loop ::
              && s'.pos == s.pos + 2
              && OneRound(e, h, task, ta, s) == Conclude(h, ta, s', best, Decide(e, ta, best, task.waitForReview))
  {
    assert [name][..0] == [] && Distinct(e, [name]) == [name];
    assert AwaitRoutes(h, s.pos) == Got([name], s.pos + 1);
    SingleChild(h, s.pos + 1, name, report);
    var log := Answered(Issue(s.log, [Route(s.request)]), [name]);
    log := Issue(log, StartCommands(s.round + 1, [name], s.request.effort));
    var s' := AfterChildren(s, log, [name], [name], [AttemptOf(name, report)], s.pos + 2);
    assert s'.pos == s.pos + 2;
  }

  /** The same approval, sent early and late.  Delivered together with the last report it is
      dropped, because the wait has not begun; delivered after the wait began it completes. */
  lemma {:induction false} EarlyApprovalIsDropped(e: Edition, ta: TaskAssessment, task: TaskInput, report: ChildReport,
                                                  yes: ReviewDecision)
    requires ta.reviewRequired && !ta.humanGateRequired && task.waitForReview && task.maxAttempts > 0
    requires yes.approved && IntegrationReady(AttemptOf("codex", report))
    ensures var h := [Activation([], TaskAssessed(ta)), Activation([], Routed(["codex"])),
                      Activation([yes], ChildDone(0, report))];
            && Execute(e, h, task).outcome == Blocked
            && var late := Execute(e, h + [Activation([yes], NoJob)], task);
               late.outcome.Finished? && late.outcome.result.status == Complete
  {
    var h := [Activation([], TaskAssessed(ta)), Activation([], Routed(["codex"])),
              Activation([yes], ChildDone(0, report))];
    var late := h + [Activation([yes], NoJob)];
    var s := FirstLoop(task, 1, STARTED);
    SingleRound(e, h, task, ta, s, "codex", report);
    SingleRound(e, late, task, ta, s, "codex", report);
    assert AwaitSignal(h, 3) == None;
    assert AwaitSignal(late, 3) == Some(3);
  }

  // ------------------------------------------------------- the effort ladder

  function Min(a: nat, b: nat): nat {
    if a < b then a else b
  }

  lemma {:induction false} IndexOfAt(list: seq<string>, i: nat, n: nat)
    requires n <= |list| && i < |list| && forall j, k :: 0 <= j < k < |list| ==> list[j] != list[k]
    ensures IndexOf(list, list[i], n) == if i < n then Some(i) else None
  {
    if n > 0 {
      IndexOfAt(list, i, n - 1);
    }
  }

  lemma {:induction false} LadderHasNoRepeats(i: nat)
    requires i < |LADDER|
    ensures IndexOf(LADDER, LADDER[i], |LADDER|) == Some(i)
  {
    assert LADDER[0][0] == 'n' && LADDER[1][0] == LADDER[3][0] == LADDER[6][0] == 'm' && LADDER[2][0] == 'l';
    assert LADDER[4][0] == 'h' && LADDER[5][0] == 'x';
    assert LADDER[1][1] == 'i' && LADDER[3][1] == 'e' && LADDER[6][1] == 'a';
    assert forall j, k :: 0 <= j < k < |LADDER| ==> LADDER[j] != LADDER[k];
    IndexOfAt(LADDER, i, |LADDER|);
  }

  /** The effort n steps above a rung of the ladder, or the top. */
  function Climb(start: nat, n: nat): string {
    LADDER[Min(start + n, |LADDER| - 1)]
  }

  /** `up` applied n times. */
  function Repeat(up: string -> string, effort: string, n: nat): string {
    if n == 0 then effort else up(Repeat(up, effort, n - 1))
  }

  lemma {:induction false} ClimbStep(start: nat, n: nat)
    ensures StrongerEffort(Climb(start, n)) == Climb(start, n + 1)
  {
    LadderHasNoRepeats(Min(start + n, |LADDER| - 1));
  }

  lemma {:induction false} RepeatClimbs(up: string -> string, start: nat, n: nat)
    requires forall k: nat :: up(Climb(start, k)) == Climb(start, k + 1)
    requires start < |LADDER|
    ensures Repeat(up, Climb(start, 0), n) == Climb(start, n)
  {
    if n > 0 {
      RepeatClimbs(up, start, n - 1);
    }
  }

  /** Raising climbs the ladder and stays at its top. */
  lemma {:induction false} RaisingClimbs(start: nat, n: nat)
    requires start < |LADDER|
    ensures Repeat(StrongerEffort, LADDER[start], n) == Climb(start, n)
  {
    forall k: nat ensures StrongerEffort(Climb(start, k)) == Climb(start, k + 1) {
      ClimbStep(start, k);
    }
    RepeatClimbs(StrongerEffort, start, n);
  }

  predicate AsksStronger(e: Edition, task: TaskInput, ta: TaskAssessment, r: RoundLog) {
    r.results != [] && VerdictOf(e, task, ta, r) == Stronger
  }

  lemma {:induction false} EffortStep(e: Edition, task: TaskInput, ta: TaskAssessment, r: RoundLog, next: RoundLog)
    requires Follows(e, task, ta, r, next)
    ensures next.request.effort
         == if AsksStronger(e, task, ta, r) then StrongerEffort(r.request.effort) else r.request.effort
  {}

  /** The rounds that asked for a stronger model. */
  function Strengthened(e: Edition, task: TaskInput, ta: TaskAssessment, rounds: seq<RoundLog>): nat {
    if rounds == [] then 0
    else
      Strengthened(e, task, ta, rounds[..|rounds| - 1]) + if AsksStronger(e, task, ta, Last(rounds)) then 1 else 0
  }

  lemma {:induction false} StrengthenedNext(e: Edition, task: TaskInput, ta: TaskAssessment, rounds: seq<RoundLog>,
                                            k: nat)
    requires 0 < k <= |rounds|
    ensures Strengthened(e, task, ta, rounds[..k])
         == Strengthened(e, task, ta, rounds[..k - 1]) + if AsksStronger(e, task, ta, rounds[k - 1]) then 1 else 0
  {
    assert rounds[..k][..k - 1] == rounds[..k - 1] && Last(rounds[..k]) == rounds[k - 1];
  }

  /** The k-th round's effort: the task's, raised once for each round that asked for it. */
  ghost predicate EffortsClimb(e: Edition, task: TaskInput, ta: TaskAssessment, rounds: seq<RoundLog>) {
    forall k :: 0 <= k < |rounds| ==>
      rounds[k].request.effort == Repeat(StrongerEffort, task.effort, Strengthened(e, task, ta, rounds[..k]))
  }

  ghost predicate EffortChain(e: Edition, task: TaskInput, ta: TaskAssessment, rounds: seq<RoundLog>,
                              up: string -> string)
  {
    && (rounds != [] ==> rounds[0].request.effort == task.effort)
    && forall j, k :: 0 <= j && k == j + 1 < |rounds| ==>
         rounds[k].request.effort
         == if AsksStronger(e, task, ta, rounds[j]) then up(rounds[j].request.effort) else rounds[j].request.effort
  }

  lemma {:induction false} ChainedEfforts(e: Edition, task: TaskInput, ta: TaskAssessment, rounds: seq<RoundLog>)
    requires Chained(e, task, ta, rounds)
    ensures EffortChain(e, task, ta, rounds, StrongerEffort)
  {
    forall j, k | 0 <= j && k == j + 1 < |rounds|
      ensures rounds[k].request.effort
           == if AsksStronger(e, task, ta, rounds[j]) then StrongerEffort(rounds[j].request.effort)
              else rounds[j].request.effort
    {
      EffortStep(e, task, ta, rounds[j], rounds[k]);
    }
  }

  lemma {:induction false} EffortAt(e: Edition, task: TaskInput, ta: TaskAssessment, rounds: seq<RoundLog>, k: nat,
                                    up: string -> string)
    requires EffortChain(e, task, ta, rounds, up) && k < |rounds|
    ensures rounds[k].request.effort == Repeat(up, task.effort, Strengthened(e, task, ta, rounds[..k]))
    decreases k
  {
    if k > 0 {
      EffortAt(e, task, ta, rounds, k - 1, up);
      StrengthenedNext(e, task, ta, rounds, k);
    }
  }

  /** Each round that asks for a stronger model raises the effort once, and nothing else in a
      run changes it. */
  lemma {:induction false} EffortOnlyClimbs(e: Edition, h: History, task: TaskInput)
    requires AssessmentIn(h).Got?
    ensures EffortsClimb(e, task, AssessmentIn(h).value, Execute(e, h, task).log.rounds)
  {
    var ta, rounds := AssessmentIn(h).value, Execute(e, h, task).log.rounds;
    RoundsAreChained(e, h, task);
    ChainedEfforts(e, task, ta, rounds);
    forall k | 0 <= k < |rounds|
      ensures rounds[k].request.effort == Repeat(StrongerEffort, task.effort, Strengthened(e, task, ta, rounds[..k]))
    {
      EffortAt(e, task, ta, rounds, k, StrongerEffort);
    }
  }
}
