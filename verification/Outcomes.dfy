/** What a run's rounds and results mean, in the terms of the history, the intervention texts
    and the attempts themselves: which reports became its attempts, which text led to which
    next request, when it waits, and how it ends. */
module Outcomes {
  import opened Common
  import opened Intelligence
  import opened TaskWorkflow
  import opened CommandTrace
  import opened WorkflowTheorems
  import opened RoundTrace

  // ------------------------------------------------------------- vocabulary

  /** Ready to be integrated: assessed so, verified as complete, and exited with zero. */
  predicate Verified(a: AttemptResult) {
    a.assessment.integrationReady && a.verification.complete && a.returnCode == 0
  }

  predicate Asks(a: AttemptResult, text: string) {
    a.assessment.intervention == Some(text)
  }

  /** An attempt that is retried. */
  predicate Retried(a: AttemptResult) {
    !Verified(a) && (Asks(a, "switch_executor") || Asks(a, "correct_same") || Asks(a, "stronger_model"))
  }

  /** One rung up; an effort that is not on the ladder becomes `high`. */
  function RungUp(effort: string): string {
    if effort == "none" then "minimal"
    else if effort == "minimal" then "low"
    else if effort == "low" then "medium"
    else if effort == "medium" then "high"
    else if effort == "high" then "xhigh"
    else if effort == "xhigh" || effort == "max" then "max"
    else "high"
  }

  /** The request `r` that follows `was` after this best attempt: a switch excludes its provider
      and forgets the preference, the other two texts prefer it, and a stronger model also
      raises the effort. */
  ghost predicate AskedBy(best: AttemptResult, was: Request, r: Request) {
    && (Asks(best, "switch_executor") ==>
          && r.effort == was.effort && r.preferred == [] && was.excluded <= r.excluded
          && (forall p :: p in r.excluded <==> p in was.excluded || p == best.provider)
          && |r.excluded| <= |was.excluded| + 1)
    && (Asks(best, "correct_same") ==> r == was.(preferred := [best.provider]))
    && (Asks(best, "stronger_model") ==> r == was.(preferred := [best.provider], effort := RungUp(was.effort)))
  }

  /** A round's best attempt that is shown to a waiting reviewer. */
  predicate Shown(e: Edition, task: TaskInput, ta: TaskAssessment, best: AttemptResult) {
    var review := ta.reviewRequired || best.reviewRequired;
    && task.waitForReview
    && if Verified(best) then review
       else match e
            case Python => best.assessment.intervention == None || Asks(best, "") || Asks(best, "human_review")
            case TypeScript =>
              review && (best.assessment.intervention == None || Asks(best, "human_review") || Asks(best, "accept"))
  }

  // ------------------------------------------------------------- the decision

  lemma {:induction false} IndexOfFinds(list: seq<string>, x: string, n: nat)
    requires n <= |list|
    ensures IndexOf(list, x, n).Some? ==> list[IndexOf(list, x, n).value] == x
    ensures IndexOf(list, x, n).None? ==> forall i :: 0 <= i < n ==> list[i] != x
  {
    if n > 0 {
      IndexOfFinds(list, x, n - 1);
    }
  }

  lemma {:induction false} RungsAreDistinct()
    ensures forall i, j :: 0 <= i < j < |LADDER| ==> LADDER[i] != LADDER[j]
  {
    assert LADDER[0][0] == 'n' && LADDER[1][0] == LADDER[3][0] == LADDER[6][0] == 'm' && LADDER[2][0] == 'l';
    assert LADDER[4][0] == 'h' && LADDER[5][0] == 'x';
    assert LADDER[1][1] == 'i' && LADDER[3][1] == 'e' && LADDER[6][1] == 'a';
  }

  lemma {:induction false} RungAt(i: nat)
    requires i < |LADDER|
    ensures RungUp(LADDER[i]) == LADDER[if i < |LADDER| - 1 then i + 1 else i]
  {
    RungsAreDistinct();
    assert LADDER == ["none", "minimal", "low", "medium", "high", "xhigh", "max"];
  }

  lemma {:induction false} StrongerIsRungUp(effort: string)
    ensures StrongerEffort(effort) == RungUp(effort)
  {
    IndexOfFinds(LADDER, effort, |LADDER|);
    match IndexOf(LADDER, effort, |LADDER|)
    case Some(i) => RungAt(i);
    case None =>
      forall i | 0 <= i < |LADDER| ensures LADDER[i] != effort {}
      assert LADDER == ["none", "minimal", "low", "medium", "high", "xhigh", "max"];
      assert forall i :: 0 <= i < |LADDER| ==> LADDER[i] != effort;
      assert LADDER[0] != effort && LADDER[1] != effort && LADDER[2] != effort && LADDER[3] != effort;
      assert LADDER[4] != effort && LADDER[5] != effort && LADDER[6] != effort;
  }

  /** Which attempts are retried, shown to the reviewer or accepted, in both editions. */
  lemma {:induction false} DecisionMeans(e: Edition, task: TaskInput, ta: TaskAssessment, best: AttemptResult)
    ensures var verdict := Decide(e, ta, best, task.waitForReview);
            && (Continues(verdict) <==> Retried(best))
            && (verdict.AskReviewer? <==> Shown(e, task, ta, best))
            && (verdict == Accept <==> Verified(best) && !ta.reviewRequired && !best.reviewRequired)
  {
    InterventionNames();
  }

  lemma {:induction false} RetryMeans(e: Edition, ta: TaskAssessment, best: AttemptResult, wait: bool, was: Request)
    requires Retried(best)
    ensures AskedBy(best, was, Intervene(was, best, Decide(e, ta, best, wait)))
  {
    InterventionNames();
    StrongerIsRungUp(was.effort);
    assert SWITCH_EXECUTOR[1] == 'w' && STRONGER_MODEL[1] == 't' && CORRECT_SAME[0] == 'c';
  }

  // ------------------------------------------------------------- texts and requests

  /** What the requests of a run say about its rounds: the first carries the task's own effort
      and preference, and a round is followed by another exactly when rounds are left and its
      best attempt is retried; then the next request is the one its text asks for. */
  ghost predicate FollowsTexts(task: TaskInput, log: Log) {
    var requests := Requests(log.commands);
    && |requests| <= |log.rounds| + 1
    && (requests != [] ==> requests[0] == Request(task.effort, [], task.preferred))
    && forall k {:trigger RoundFollowed(task, log.rounds, requests, k)} ::
         0 < k <= |log.rounds| ==> RoundFollowed(task, log.rounds, requests, k)
  }

  ghost predicate RoundFollowed(task: TaskInput, rounds: seq<RoundLog>, requests: seq<Request>, k: nat) {
    && 0 < k <= |rounds| && k <= |requests| && rounds[k - 1].results != []
    && (k < |requests| <==> k < task.maxAttempts && Retried(BestOf(rounds[k - 1])))
    && (k < |requests| ==> AskedBy(BestOf(rounds[k - 1]), requests[k - 1], requests[k]))
  }

  lemma {:induction false} FollowedBy(e: Edition, task: TaskInput, ta: TaskAssessment, rounds: seq<RoundLog>,
                                      requests: seq<Request>, answers: seq<seq<string>>, waits: bool, k: nat)
    requires RequestsChained(e, task, ta, rounds, requests) && Reported(e, rounds, requests, answers)
    requires Settled(e, task, ta, rounds, requests, waits)
    requires 0 < k <= |rounds| && RoundOk(rounds[k - 1])
    ensures RoundFollowed(task, rounds, requests, k)
  {
    var best := BestOf(rounds[k - 1]);
    DecisionMeans(e, task, ta, best);
    if k < |requests| {
      assert Requested(e, task, ta, rounds, k, requests[k]);
      assert rounds[k - 1].request == requests[k - 1];
      RetryMeans(e, ta, best, task.waitForReview, requests[k - 1]);
    }
  }

  /** The intervention text of a round's best attempt, and nothing else, decides whether there
      is another round and what it asks for. */
  lemma {:induction false} TextsDecide(e: Edition, h: History, task: TaskInput)
    requires AssessmentIn(h).Got?
    ensures FollowsTexts(task, Execute(e, h, task).log)
    ensures Requests(Execute(e, h, task).log.commands) == [] <==> task.maxAttempts == 0 || GateHolds(h)
  {
    var ta, log := AssessmentIn(h).value, Execute(e, h, task).log;
    var requests := Requests(log.commands);
    CommandsAreRounds(e, h, task);
    RoundsAreChained(e, h, task);
    var waits := Settled(e, task, ta, log.rounds, requests, true);
    forall k | 0 < k <= |log.rounds| ensures RoundFollowed(task, log.rounds, requests, k) {
      assert RoundOk(log.rounds[k - 1]);
      FollowedBy(e, task, ta, log.rounds, requests, log.answers, waits, k);
    }
    if GateHolds(h) {
      GateStops(e, h, task, ta, AssessmentIn(h).next);
    }
  }

  lemma {:induction false} WorkEndsInNoWait(start: seq<Command>, e: Edition, requests: seq<Request>,
                                            answers: seq<seq<string>>)
    requires |answers| <= |requests| <= |answers| + 1 && requests != []
    ensures var work := CommandsOf(e, requests, answers); work != [] && Last(start + work + []) != BeginWait
  {
    var n := |requests| - 1;
    if |answers| != n {
      var round := RoundCommands(e, n + 1, requests[n], answers[n]);
      assert Last(round) != BeginWait;
      assert Last(CommandsOf(e, requests[..n], answers[..n]) + round) == Last(round);
    }
  }

  /** The run ends in a review wait for its last round's best attempt. */
  predicate EndsInWait(log: Log) {
    log.commands != [] && Last(log.commands) == BeginWait
  }

  lemma {:induction false} WaitTells(e: Edition, h: History, task: TaskInput, ta: TaskAssessment, log: Log,
                                     requests: seq<Request>, waits: bool)
    requires Fits(Opening(h), e, h, task, ta, log, requests, waits) && requests != []
    ensures EndsInWait(log) <==> waits
  {
    WorkEndsInNoWait(Opening(h), e, requests, log.answers);
  }

  /** After a round a review wait is the last thing a run opens, and it does so exactly when
      that round's best attempt is one to be shown to a waiting reviewer. */
  lemma {:induction false} WaitsWhenShown(e: Edition, h: History, task: TaskInput)
    requires AssessmentIn(h).Got? && Execute(e, h, task).log.rounds != []
    ensures var log := Execute(e, h, task).log;
            && Last(log.rounds).results != []
            && (EndsInWait(log) <==>
                  |Requests(log.commands)| == |log.rounds|
                  && Shown(e, task, AssessmentIn(h).value, BestOf(Last(log.rounds))))
  {
    var ta, log := AssessmentIn(h).value, Execute(e, h, task).log;
    var requests := Requests(log.commands);
    CommandsAreRounds(e, h, task);
    RoundsAreChained(e, h, task);
    assert RoundOk(log.rounds[|log.rounds| - 1]);
    DecisionMeans(e, task, ta, BestOf(Last(log.rounds)));
    var waits := Fits(Opening(h), e, h, task, ta, log, requests, true)
                 && Settled(e, task, ta, log.rounds, requests, true);
    WaitTells(e, h, task, ta, log, requests, waits);
  }

  // ------------------------------------------------------------- reports and attempts

  /** A job that ends child i. */
  predicate Answers(job: Job, i: nat) {
    match job
    case ChildDone(j, _) => j == i
    case ChildFailed(j) => j == i
    case ChildCancelled(j) => j == i
    case _ => false
  }

  /** The attempt says what the report said. */
  predicate Repeats(a: AttemptResult, report: ChildReport) {
    && a.returnCode == report.returnCode && a.verification == report.verification && a.assessment == report.assessment
    && a.accepted == report.assessment.accepted && a.reviewRequired == report.assessment.reviewRequired
  }

  /** A child that failed: it cannot complete, nor be retried, and it needs a reviewer. */
  predicate IsFailure(a: AttemptResult) {
    && a.returnCode == 1 && !a.verification.complete && a.verification.status == "child_failure"
    && !a.accepted && a.reviewRequired && Asks(a, "human_review")
    && !a.assessment.integrationReady && a.assessment.semantic == a.assessment.evidence == 0.0
  }

  predicate Tells(job: Job, provider: string, a: AttemptResult) {
    && a.provider == provider
    && match job
       case ChildDone(_, report) => Repeats(a, report)
       case ChildFailed(_) => IsFailure(a)
       case _ => false
  }

  ghost predicate FirstAnswer(h: History, from: nat, to: nat, i: nat, q: nat) {
    && from <= q < to <= |h| && Answers(h[q].job, i)
    && forall j :: from <= j < q ==> !Answers(h[j].job, i)
  }

  ghost predicate Told(h: History, from: nat, to: nat, i: nat, provider: string, a: AttemptResult) {
    exists q: nat :: FirstAnswer(h, from, to, i, q) && Tells(h[q].job, provider, a)
  }

  /** Each child's result is what its first answer in this stretch of the history says. */
  ghost predicate Gathered(h: History, from: nat, to: nat, providers: seq<string>, results: seq<AttemptResult>) {
    && |results| == |providers|
    && forall i :: 0 <= i < |results| ==> Told(h, from, to, i, providers[i], results[i])
  }

  ghost predicate SlotsTold(h: History, from: nat, to: nat, providers: seq<string>, slots: Slots) {
    && |slots| == |providers| && from <= to <= |h|
    && (forall i :: 0 <= i < |slots| && slots[i].Some? ==> Told(h, from, to, i, providers[i], slots[i].value))
    && forall i, j :: 0 <= i < |slots| && slots[i].None? && from <= j < to ==> !Answers(h[j].job, i)
  }

  lemma {:induction false} ToldLater(h: History, from: nat, to: nat, i: nat, provider: string, a: AttemptResult)
    requires Told(h, from, to, i, provider, a) && to < |h|
    ensures Told(h, from, to + 1, i, provider, a)
  {
    var q: nat :| FirstAnswer(h, from, to, i, q) && Tells(h[q].job, provider, a);
    assert FirstAnswer(h, from, to + 1, i, q);
  }

  lemma {:induction false} NothingTold(h: History, from: nat, to: nat, providers: seq<string>, slots: Slots)
    requires SlotsTold(h, from, to, providers, slots) && to < |h|
    requires ChildAnswer(h[to].job, providers, slots) == None
    ensures SlotsTold(h, from, to + 1, providers, slots)
  {
    forall i | 0 <= i < |slots| && slots[i].Some? ensures Told(h, from, to + 1, i, providers[i], slots[i].value) {
      ToldLater(h, from, to, i, providers[i], slots[i].value);
    }
  }

  lemma {:induction false} OneTold(h: History, from: nat, to: nat, providers: seq<string>, slots: Slots, i: nat,
                                   result: AttemptResult)
    requires SlotsTold(h, from, to, providers, slots) && to < |h|
    requires ChildAnswer(h[to].job, providers, slots) == Some((i, Some(result)))
    ensures SlotsTold(h, from, to + 1, providers, slots[i := Some(result)])
  {
    var slots' := slots[i := Some(result)];
    assert FirstAnswer(h, from, to + 1, i, to) && Tells(h[to].job, providers[i], result);
    forall k | 0 <= k < |slots'| && slots'[k].Some? ensures Told(h, from, to + 1, k, providers[k], slots'[k].value) {
      if k != i {
        ToldLater(h, from, to, k, providers[k], slots[k].value);
      }
    }
  }

  lemma {:induction false} ChildrenTell(h: History, from: nat, p: nat, providers: seq<string>, slots: Slots)
    requires SlotsOf(slots, providers) && SlotsTold(h, from, p, providers, slots)
    ensures var r := AwaitChildren(h, p, providers, slots);
            r.Got? ==> p <= r.next <= |h| && Gathered(h, from, r.next, providers, r.value)
    decreases |h| - p
  {
    if !AllFilled(slots) && p < |h| {
      match ChildAnswer(h[p].job, providers, slots)
      case None =>
        NothingTold(h, from, p, providers, slots);
        ChildrenTell(h, from, p + 1, providers, slots);
      case Some((i, Some(result))) =>
        OneTold(h, from, p, providers, slots, i, result);
        ChildrenTell(h, from, p + 1, providers, slots[i := Some(result)]);
      case Some((i, None)) =>
    }
  }

  /** Awaiting takes the first routing answer or failure that comes, and nothing else. */
  lemma {:induction false} RoutesAreNext(h: History, p: nat)
    requires p <= |h|
    ensures match AwaitRoutes(h, p)
            case Got(routes, q) =>
              q <= |h| && h[q - 1].job == Routed(routes)
              && forall j :: p <= j < q - 1 ==> !h[j].job.Routed? && !h[j].job.ActivityFailed?
            case Raised => exists q: nat :: p <= q < |h| && Fails(h[q].job)
            case Pending => forall j :: p <= j < |h| ==> !h[j].job.Routed? && !h[j].job.ActivityFailed?
    decreases |h| - p
  {
    if p < |h| && !h[p].job.Routed? && !h[p].job.ActivityFailed? {
      RoutesAreNext(h, p + 1);
    }
  }

  /** So does awaiting the assessment. */
  lemma {:induction false} AssessmentIsNext(h: History, p: nat)
    requires p <= |h|
    ensures match AwaitAssessment(h, p)
            case Got(ta, q) =>
              p < q <= |h| && h[q - 1].job == TaskAssessed(ta)
              && forall j :: p <= j < q - 1 ==> !h[j].job.TaskAssessed? && !h[j].job.ActivityFailed?
            case Raised => exists q: nat :: p <= q < |h| && Fails(h[q].job)
            case Pending => forall j :: p <= j < |h| ==> !h[j].job.TaskAssessed? && !h[j].job.ActivityFailed?
    decreases |h| - p
  {
    if p < |h| && !h[p].job.TaskAssessed? && !h[p].job.ActivityFailed? {
      AssessmentIsNext(h, p + 1);
    }
  }

  /** A job that ends the run without a result. */
  predicate Fails(job: Job) {
    job.ActivityFailed? || job.ChildCancelled?
  }

  lemma {:induction false} ChildrenRaise(h: History, p: nat, providers: seq<string>, slots: Slots)
    requires p <= |h| && SlotsOf(slots, providers) && AwaitChildren(h, p, providers, slots).Raised?
    ensures exists q: nat :: p <= q < |h| && Fails(h[q].job)
    decreases |h| - p
  {
    match ChildAnswer(h[p].job, providers, slots)
    case None => ChildrenRaise(h, p + 1, providers, slots);
    case Some((i, Some(result))) => ChildrenRaise(h, p + 1, providers, slots[i := Some(result)]);
    case Some((i, None)) => assert Fails(h[p].job);
  }

  ghost predicate HasFailure(h: History) {
    exists q: nat :: q < |h| && Fails(h[q].job)
  }

  lemma {:induction false} RoutesRaise(h: History, p: nat)
    requires p <= |h| && AwaitRoutes(h, p).Raised?
    ensures HasFailure(h)
  {
    RoutesAreNext(h, p);
  }

  /** The round's routes arrived just before its children's answers did. */
  ghost predicate FromReports(h: History, r: RoundLog) {
    exists from: nat, to: nat :: ReportedIn(h, r, from, to)
  }

  ghost predicate ReportedIn(h: History, r: RoundLog, from: nat, to: nat) {
    0 < from <= to <= |h| && h[from - 1].job == Routed(r.routes) && Gathered(h, from, to, r.providers, r.results)
  }

  ghost predicate AllFromReports(h: History, rounds: seq<RoundLog>) {
    forall k :: 0 <= k < |rounds| ==> FromReports(h, rounds[k])
  }

  // ------------------------------------------------------------- the best attempt

  /** At least as strong, comparing acceptance, then readiness, then the two probabilities. */
  predicate AtLeast(a: AttemptResult, b: AttemptResult) {
    && (b.accepted ==> a.accepted)
    && (a.accepted == b.accepted ==>
          && (b.assessment.integrationReady ==> a.assessment.integrationReady)
          && (a.assessment.integrationReady == b.assessment.integrationReady ==>
                && a.assessment.semantic >= b.assessment.semantic
                && (a.assessment.semantic == b.assessment.semantic ==>
                      a.assessment.evidence >= b.assessment.evidence)))
  }

  /** The chosen attempt is at least as strong as every other, and stronger than all before it;
      so if any attempt was accepted, the chosen one was. */
  lemma {:induction false} BestIsStrongest(attempts: seq<AttemptResult>)
    requires attempts != []
    ensures var k := BestIndex(attempts);
            && Best(attempts) == attempts[k]
            && (forall i :: 0 <= i < |attempts| ==> AtLeast(attempts[k], attempts[i]))
            && (forall i :: 0 <= i < k ==> !AtLeast(attempts[i], attempts[k]))
            && (Best(attempts).accepted <==> exists a :: a in attempts && a.accepted)
  {
    var k := BestIndex(attempts);
    forall i | 0 <= i < |attempts| ensures AtLeast(attempts[k], attempts[i]) {
      assert !Below(attempts[k], attempts[i]);
    }
    forall i | 0 <= i < k ensures !AtLeast(attempts[i], attempts[k]) {
      assert Below(attempts[i], attempts[k]);
    }
  }

  // ------------------------------------------------------------- how a run ends

  /** The last wait was opened for the last round, or for the gate if there was none. */
  predicate WaitedAtTheEnd(log: Log) {
    log.waits != [] && Last(log.waits).rounds == |log.rounds|
  }

  /** A run that failed found no executor or used up its rounds; one that was rejected was
      rejected by a reviewer; one that completed has a verified attempt.  The selected provider
      is the last round's best attempt's, or of a failed run the best of all attempts', and the
      note is the deciding reviewer's. */
  ghost predicate EndsAs(log: Log, r: TaskResult) {
    var rounds := log.rounds;
    && (forall k :: 0 <= k < |rounds| ==> rounds[k].results != [])
    && r.attempts == Flatten(rounds) && r.finalRisk == r.assessment.finalRisk
    && (r.status == Rejected <==> log.waits != [] && !Last(log.waits).decision.approved)
    && (r.status == Failed <==> if rounds == [] then r.status != Rejected else Retried(BestOf(Last(rounds))))
    && (r.status == Complete ==> rounds != [] && Verified(BestOf(Last(rounds))))
    && (r.selected == None <==> rounds == [])
    && (r.status == Failed && rounds != [] ==>
          exists k: nat :: IsFirstMax(r.attempts, k) && r.selected == Some(r.attempts[k].provider))
    && (r.status != Failed && rounds != [] ==> r.selected == Some(BestOf(Last(rounds)).provider))
    && r.note == if WaitedAtTheEnd(log) && r.status != Failed then Some(Last(log.waits).decision.note) else None
  }

  ghost predicate RunEnds(h: History, run: Run) {
    && AllFromReports(h, run.log.rounds)
    && (run.outcome.Finished? ==> EndsAs(run.log, run.outcome.result))
    && (run.outcome.Aborted? ==> HasFailure(h))
  }

  /** The gate's wait, if any, was released by an approval. */
  predicate Approved(waits: seq<Wait>) {
    waits == [] || Last(waits).decision.approved
  }

  ghost predicate LoopGoes(e: Edition, h: History, task: TaskInput, ta: TaskAssessment, s: Loop) {
    LoopInv(e, h, task, ta, s) && AllFromReports(h, s.log.rounds) && Approved(s.log.waits)
  }

  ghost predicate StepGoes(h: History, waits: seq<Wait>, step: Step) {
    match step
    case Done(run) => RunEnds(h, run)
    case Again(s) => AllFromReports(h, s.log.rounds) && s.log.waits == waits
  }

  lemma {:induction false} GaveUpEnds(e: Edition, h: History, task: TaskInput, ta: TaskAssessment, s: Loop, run: Run)
    requires LoopGoes(e, h, task, ta, s)
    requires run.log.waits == s.log.waits && run.log.rounds == s.log.rounds
    requires run.outcome.Finished? ==> run.outcome.result == GaveUp(ta, s.attempts)
    requires run.outcome.Aborted? ==> HasFailure(h)
    ensures StepGoes(h, s.log.waits, Done(run))
  {
    var rounds := s.log.rounds;
    if rounds != [] {
      assert RoundOk(rounds[|rounds| - 1]);
      DecisionMeans(e, task, ta, BestOf(Last(rounds)));
      assert s.attempts == Flatten(rounds[..|rounds| - 1]) + Last(rounds).results;
      assert IsFirstMax(s.attempts, BestIndex(s.attempts));
    }
    forall k | 0 <= k < |rounds| ensures rounds[k].results != [] {
      assert RoundOk(rounds[k]);
    }
  }

  /** The state in which a round's verdict is carried out. */
  ghost predicate ReadyToEnd(h: History, s: Loop, best: AttemptResult) {
    && s.pos <= |h| && s.log.rounds != [] && s.attempts == Flatten(s.log.rounds)
    && (forall k :: 0 <= k < |s.log.rounds| ==> s.log.rounds[k].results != [])
    && best == BestOf(Last(s.log.rounds))
    && AllFromReports(h, s.log.rounds) && Approved(s.log.waits)
    && forall i :: 0 <= i < |s.log.waits| ==> s.log.waits[i].rounds == 0
  }

  lemma {:induction false} AskEnds(h: History, ta: TaskAssessment, s: Loop, best: AttemptResult, ifApproved: Status)
    requires ReadyToEnd(h, s, best) && !Retried(best)
    requires ifApproved == ReviewRequired || (ifApproved == Complete && Verified(best))
    ensures StepGoes(h, s.log.waits, Conclude(h, ta, s, best, AskReviewer(ifApproved)))
  {
    match Review(h, s.pos, s.log)
    case Unreleased(_) =>
    case Released(log, decision, _) =>
      assert Last(log.waits).decision == decision && Last(log.waits).rounds == |log.rounds|;
  }

  lemma {:induction false} StopEnds(h: History, ta: TaskAssessment, s: Loop, best: AttemptResult, verdict: Verdict)
    requires ReadyToEnd(h, s, best) && !Retried(best)
    requires verdict == StopForReview || (verdict == Accept && Verified(best))
    ensures StepGoes(h, s.log.waits, Conclude(h, ta, s, best, verdict))
  {
    assert s.log.waits != [] ==> Last(s.log.waits).rounds == 0;
  }

  lemma {:induction false} ConcludeEnds(h: History, task: TaskInput, e: Edition, ta: TaskAssessment, s: Loop,
                                        best: AttemptResult)
    requires ReadyToEnd(h, s, best)
    ensures StepGoes(h, s.log.waits, Conclude(h, ta, s, best, Decide(e, ta, best, task.waitForReview)))
  {
    DecisionMeans(e, task, ta, best);
    match Decide(e, ta, best, task.waitForReview)
    case AskReviewer(ifApproved) => AskEnds(h, ta, s, best, ifApproved);
    case Accept => StopEnds(h, ta, s, best, Accept);
    case StopForReview => StopEnds(h, ta, s, best, StopForReview);
    case _ =>
  }

  lemma {:induction false} MidIsReady(e: Edition, h: History, task: TaskInput, ta: TaskAssessment, s: Loop)
    requires MidInv(e, h, task, ta, s) && AllFromReports(h, s.log.rounds) && Approved(s.log.waits)
    ensures Last(s.log.rounds).results != [] && ReadyToEnd(h, s, BestOf(Last(s.log.rounds)))
  {
    var rounds := s.log.rounds;
    forall k | 0 <= k < |rounds| ensures rounds[k].results != [] {
      assert RoundOk(rounds[k]);
    }
  }

  lemma {:induction false} ProvidersGo(e: Edition, h: History, task: TaskInput, ta: TaskAssessment, s: Loop, log: Log,
                                       routes: seq<string>, p: nat)
    requires LoopGoes(e, h, task, ta, s) && s.round < task.maxAttempts && s.pos < p <= |h|
    requires log.waits == s.log.waits && log.rounds == s.log.rounds && Distinct(e, routes) != []
    requires h[p - 1].job == Routed(routes)
    ensures StepGoes(h, s.log.waits, RunProviders(e, h, task, ta, s, log, routes, p))
  {
    var providers := Distinct(e, routes);
    var log' := Issue(log, StartCommands(s.round + 1, providers, s.request.effort));
    match AwaitChildren(h, p, providers, EmptySlots(|providers|))
    case Pending => GaveUpEnds(e, h, task, ta, s, Run(Blocked, log'));
    case Raised =>
      ChildrenRaise(h, p, providers, EmptySlots(|providers|));
      GaveUpEnds(e, h, task, ta, s, Run(Aborted, log'));
    case Got(results, q) =>
      var s' := AfterChildren(s, log', routes, providers, results, q);
      ChildrenTell(h, p, p, providers, EmptySlots(|providers|));
      ChildrenKeep(e, h, task, ta, s, log', routes, results, q);
      assert ReportedIn(h, Last(s'.log.rounds), p, q);
      MidIsReady(e, h, task, ta, s');
      ConcludeEnds(h, task, e, ta, s', Best(results));
  }

  /** The routing answer never came, or was a failure. */
  lemma {:induction false} UnansweredGoes(e: Edition, h: History, task: TaskInput, ta: TaskAssessment, s: Loop,
                                          log: Log, r: Awaited<seq<string>>)
    requires LoopGoes(e, h, task, ta, s) && log.waits == s.log.waits && log.rounds == s.log.rounds
    requires !r.Got? && (r.Raised? ==> HasFailure(h))
    ensures StepGoes(h, s.log.waits, Answer(e, h, task, ta, s, log, r))
  {
    GaveUpEnds(e, h, task, ta, s, Run(if r.Pending? then Blocked else Aborted, log));
  }

  lemma {:induction false} NobodyGoes(e: Edition, h: History, task: TaskInput, ta: TaskAssessment, s: Loop, log: Log,
                                      r: Awaited<seq<string>>)
    requires LoopGoes(e, h, task, ta, s) && log.waits == s.log.waits && log.rounds == s.log.rounds
    requires r.Got? && s.pos <= r.next <= |h| && Distinct(e, r.value) == []
    ensures StepGoes(h, s.log.waits, Answer(e, h, task, ta, s, log, r))
  {
    GaveUpEnds(e, h, task, ta, s, Run(Finished(GaveUp(ta, s.attempts)), Answered(log, r.value)));
  }

  lemma {:induction false} AnsweredGoes(e: Edition, h: History, task: TaskInput, ta: TaskAssessment, s: Loop, log: Log,
                                        r: Awaited<seq<string>>)
    requires LoopGoes(e, h, task, ta, s) && log.waits == s.log.waits && log.rounds == s.log.rounds
    requires r.Got? && s.pos < r.next <= |h| && h[r.next - 1].job == Routed(r.value) && Distinct(e, r.value) != []
    requires s.round < task.maxAttempts
    ensures StepGoes(h, s.log.waits, Answer(e, h, task, ta, s, log, r))
  {
    ProvidersGo(e, h, task, ta, s, Answered(log, r.value), r.value, r.next);
  }

  lemma {:induction false} AnswerGoes(e: Edition, h: History, task: TaskInput, ta: TaskAssessment, s: Loop, log: Log,
                                      r: Awaited<seq<string>>)
    requires LoopGoes(e, h, task, ta, s) && log.waits == s.log.waits && log.rounds == s.log.rounds
    requires s.round < task.maxAttempts && r == AwaitRoutes(h, s.pos)
    ensures StepGoes(h, s.log.waits, Answer(e, h, task, ta, s, log, r))
  {
    if r.Raised? {
      RoutesRaise(h, s.pos);
    }
    if !r.Got? {
      UnansweredGoes(e, h, task, ta, s, log, r);
    } else if Distinct(e, r.value) == [] {
      NobodyGoes(e, h, task, ta, s, log, r);
    } else {
      AnsweredGoes(e, h, task, ta, s, log, r);
    }
  }

  lemma {:induction false} RoundGoes(e: Edition, h: History, task: TaskInput, ta: TaskAssessment, s: Loop)
    requires LoopGoes(e, h, task, ta, s) && s.round < task.maxAttempts
    ensures StepGoes(h, s.log.waits, OneRound(e, h, task, ta, s))
  {
    RoundIsAnswer(e, h, task, ta, s);
    AnswerGoes(e, h, task, ta, s, Issue(s.log, [Route(s.request)]), AwaitRoutes(h, s.pos));
  }

  lemma {:induction false} RoundsEnd(e: Edition, h: History, task: TaskInput, ta: TaskAssessment, s: Loop)
    requires LoopGoes(e, h, task, ta, s)
    ensures RunEnds(h, Rounds(e, h, task, ta, s))
    decreases task.maxAttempts - s.round
  {
    if s.round < task.maxAttempts {
      RoundGoes(e, h, task, ta, s);
      RoundKeeps(e, h, task, ta, s);
      match OneRound(e, h, task, ta, s)
      case Again(s') => RoundsEnd(e, h, task, ta, s');
      case Done(_) =>
    } else {
      GaveUpEnds(e, h, task, ta, s, Run(Finished(GaveUp(ta, s.attempts)), s.log));
    }
  }

  lemma {:induction false} GateEnds(e: Edition, h: History, task: TaskInput, ta: TaskAssessment, p: nat)
    requires p <= |h| && ta.humanGateRequired && !GatePassed(GateWait(h, p))
    ensures RunEnds(h, AfterAssessment(e, h, task, ta, p))
  {
    if GateWait(h, p) != [] {
      GateReview(h, p);
    }
  }

  /** Every run's attempts are its children's reports in the history, and every finished run
      ends as these say. */
  lemma {:induction false} ResultMeans(e: Edition, h: History, task: TaskInput)
    ensures RunEnds(h, Execute(e, h, task))
  {
    AssessmentIsNext(h, 0);
    match AwaitAssessment(h, 0)
    case Got(ta, p) =>
      var gate := GateWait(h, p);
      if !ta.humanGateRequired {
        FirstLoopInv(e, h, task, ta, p, STARTED);
        RoundsEnd(e, h, task, ta, FirstLoop(task, p, STARTED));
      } else if GatePassed(gate) {
        GatePasses(e, h, task, ta, p);
        GateWaitFresh(h, p);
        FirstLoopInv(e, h, task, ta, gate[0].release + 1, GateLog(gate));
        RoundsEnd(e, h, task, ta, LoopBehind(task, gate));
      } else {
        GateEnds(e, h, task, ta, p);
      }
    case _ =>
  }

  // ------------------------------------------------------------- assessed by the result policy

  /** Every report's assessment is what the result policy makes of its exit code, its evidence
      and some answers of the decision engine. */
  ghost predicate PolicyAssesses(policy: Policy, risk: RiskClass, h: History) {
    forall q :: 0 <= q < |h| && h[q].job.ChildDone? ==> Assessed(policy, risk, h[q].job.report)
  }

  ghost predicate Assessed(policy: Policy, risk: RiskClass, report: ChildReport) {
    exists answers ::
      report.assessment == AssessResult(policy, risk, report.returnCode, report.verification.complete, answers)
  }

  /** What the policy demands of work at this risk. */
  predicate Certain(policy: Policy, risk: RiskClass, a: AttemptResult) {
    && a.returnCode == 0 && a.verification.complete && Asks(a, "accept")
    && a.assessment.semantic >= ThresholdFor(policy, risk) && a.assessment.evidence >= ThresholdFor(policy, risk)
  }

  lemma {:induction false} ReportIsCertain(policy: Policy, risk: RiskClass, h: History, r: RoundLog, i: nat)
    requires PolicyAssesses(policy, risk, h) && FromReports(h, r) && i < |r.results| && Verified(r.results[i])
    ensures Certain(policy, risk, r.results[i])
  {
    var from: nat, to: nat :| ReportedIn(h, r, from, to);
    assert Told(h, from, to, i, r.providers[i], r.results[i]);
    var q: nat :| FirstAnswer(h, from, to, i, q) && Tells(h[q].job, r.providers[i], r.results[i]);
    assert Assessed(policy, risk, h[q].job.report);
  }

  /** Where the result policy assesses the children, a run completes only with an attempt that
      exited with zero, has verified evidence, and on which the engine said `accept` with both
      certainties at least the threshold of the task's risk. */
  lemma {:induction false} CompletionIsCertain(e: Edition, h: History, task: TaskInput, policy: Policy)
    requires AssessmentIn(h).Got? && PolicyAssesses(policy, AssessmentIn(h).value.finalRisk, h)
    ensures var run := Execute(e, h, task);
            run.outcome.Finished? && run.outcome.result.status == Complete ==>
              && run.log.rounds != [] && Last(run.log.rounds).results != []
              && Certain(policy, AssessmentIn(h).value.finalRisk, BestOf(Last(run.log.rounds)))
  {
    ResultMeans(e, h, task);
    var run := Execute(e, h, task);
    if run.outcome.Finished? && run.outcome.result.status == Complete {
      var r := Last(run.log.rounds);
      assert FromReports(h, run.log.rounds[|run.log.rounds| - 1]);
      ReportIsCertain(policy, AssessmentIn(h).value.finalRisk, h, r, BestIndex(r.results));
    }
  }
}
