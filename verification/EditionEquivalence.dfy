/** The Python and the TypeScript loop are one policy: where they agree, and exactly
    where they do not. */
module EditionEquivalence {
  import opened Common
  import opened Intelligence
  import opened TaskWorkflow
  import opened CommandTrace
  import opened WorkflowTheorems

  lemma {:induction false} DistinctAgree(routes: seq<string>)
    requires "" !in routes
    ensures Distinct(Python, routes) == Distinct(TypeScript, routes)
  {
    if routes != [] {
      DistinctAgree(routes[..|routes| - 1]);
    }
  }

  /** The one difference: with human waiting on, an attempt that is not ready is shown to
      the reviewer by one edition and returned at once by the other. */
  predicate Differ(ta: TaskAssessment, best: AttemptResult, wait: bool) {
    wait && !IntegrationReady(best)
    && match best.assessment.intervention
       case None => !ReviewNeeded(ta, best)
       case Some(text) =>
         || text == ""
         || (text == HUMAN_REVIEW && !ReviewNeeded(ta, best))
         || (text == ACCEPT && ReviewNeeded(ta, best))
  }

  lemma {:induction false} VerdictsDiffer(ta: TaskAssessment, best: AttemptResult, wait: bool)
    ensures Decide(Python, ta, best, wait) != Decide(TypeScript, ta, best, wait) <==> Differ(ta, best, wait)
    ensures Differ(ta, best, wait) ==>
              {Decide(Python, ta, best, wait), Decide(TypeScript, ta, best, wait)}
              == {AskReviewer(ReviewRequired), StopForReview}
  {
    InterventionNames();
  }

  /** For attempts whose assessment the result policy produced, the only difference left is
      an `accept` that is not integration-ready but needs review. */
  lemma {:induction false} GenuineDifference(policy: Policy, ta: TaskAssessment, provider: string, risk: RiskClass,
                                             exitCode: int,
                          verification: Verification, answers: ResultAnswers, wait: bool)
    requires answers.intervention != ""
    ensures var report := ChildReport(exitCode, verification,
                                      AssessResult(policy, risk, exitCode, verification.complete, answers));
            var best := AttemptOf(provider, report);
            Differ(ta, best, wait)
            <==> wait && !IntegrationReady(best) && answers.intervention == ACCEPT && ReviewNeeded(ta, best)
    ensures !Differ(ta, FailedAttempt(provider), wait)
  {
    InterventionNames();
  }

  /** Whether the last round that reported is one the editions treat differently. */
  predicate EndsInDifference(task: TaskInput, ta: TaskAssessment, log: Log) {
    log.rounds != [] && Last(log.rounds).results != []
    && Differ(ta, BestOf(Last(log.rounds)), task.waitForReview)
  }

  /** How the two runs from one loop state compare. */
  ghost predicate Agree(task: TaskInput, ta: TaskAssessment, py: Run, ts: Run) {
    && py.log.rounds == ts.log.rounds
    && (py != ts <==> EndsInDifference(task, ta, py.log))
    && (py != ts ==> !Completed(py) && !Completed(ts))
  }

  predicate Completed(run: Run) {
    run.outcome.Finished? && run.outcome.result.status == Complete
  }

  lemma {:induction false} ConcludeAgree(h: History, task: TaskInput, ta: TaskAssessment, s: Loop)
    requires s.pos <= |h| && s.log.rounds != [] && Last(s.log.rounds).results != []
    ensures var best := BestOf(Last(s.log.rounds));
            var py := Conclude(h, ta, s, best, Decide(Python, ta, best, task.waitForReview));
            var ts := Conclude(h, ta, s, best, Decide(TypeScript, ta, best, task.waitForReview));
            (py == ts && py.Again?) || (py.Done? && ts.Done? && Agree(task, ta, py.run, ts.run))
  {
    var best := BestOf(Last(s.log.rounds));
    VerdictsDiffer(ta, best, task.waitForReview);
    var asks := Conclude(h, ta, s, best, AskReviewer(ReviewRequired));
    assert asks.run.log.commands == s.log.commands + [BeginWait];
  }

  /** Two equal runs that ended before any new round reported. */
  lemma {:induction false} EarlyAgree(h: History, task: TaskInput, ta: TaskAssessment, s: Loop, run: Run)
    requires LoopInv(Python, h, task, ta, s) && run.log.rounds == s.log.rounds
    ensures Agree(task, ta, run, run)
  {
    if s.log.rounds != [] {
      VerdictsDiffer(ta, BestOf(Last(s.log.rounds)), task.waitForReview);
    }
  }

  ghost predicate StepsAgree(task: TaskInput, ta: TaskAssessment, py: Step, ts: Step) {
    (py == ts && py.Again?) || (py.Done? && ts.Done? && Agree(task, ta, py.run, ts.run))
  }

  lemma {:induction false} ProvidersAgree(h: History, task: TaskInput, ta: TaskAssessment, s: Loop, log: Log,
                                          routes: seq<string>, p: nat)
    requires LoopInv(Python, h, task, ta, s) && s.pos <= p <= |h| && log.rounds == s.log.rounds
    requires Distinct(Python, routes) == Distinct(TypeScript, routes) != []
    ensures StepsAgree(task, ta, RunProviders(Python, h, task, ta, s, log, routes, p),
                       RunProviders(TypeScript, h, task, ta, s, log, routes, p))
  {
    var providers := Distinct(Python, routes);
    var log' := Issue(log, StartCommands(s.round + 1, providers, s.request.effort));
    match AwaitChildren(h, p, providers, EmptySlots(|providers|))
    case Pending => EarlyAgree(h, task, ta, s, Run(Blocked, log'));
    case Raised => EarlyAgree(h, task, ta, s, Run(Aborted, log'));
    case Got(results, q) => ConcludeAgree(h, task, ta, AfterChildren(s, log', routes, providers, results, q));
  }

  /** Python's round executed a provider without a name, which TypeScript's drops. */
  lemma {:induction false} NamelessRound(h: History, task: TaskInput, ta: TaskAssessment, s: Loop, log: Log,
                                         routes: seq<string>, p: nat)
    requires s.pos <= p <= |h| && "" in routes && log.waits == s.log.waits
    requires TracedLoop([], false, s) && Traced([], false, log.commands, s.round)
    requires Openings(log.commands) == |log.waits|
    ensures Distinct(Python, routes) != []
    ensures StartsNameless(LogOf(RunProviders(Python, h, task, ta, s, log, routes, p)).commands)
  {
    var providers := Distinct(Python, routes);
    assert "" in providers;
    var starts := StartCommands(s.round + 1, providers, s.request.effort);
    NamelessProviders(h, task, ta, s, log, routes, p, log.commands + starts);
  }

  lemma {:induction false} NamelessProviders(h: History, task: TaskInput, ta: TaskAssessment, s: Loop, log: Log,
                                             routes: seq<string>, p: nat, started: seq<Command>)
    requires s.pos <= p <= |h| && "" in Distinct(Python, routes) && log.waits == s.log.waits
    requires Traced([], false, log.commands, s.round) && Openings(log.commands) == |log.waits|
    requires started == log.commands + StartCommands(s.round + 1, Distinct(Python, routes), s.request.effort)
    ensures StartsNameless(LogOf(RunProviders(Python, h, task, ta, s, log, routes, p)).commands)
  {
    var step := RunProviders(Python, h, task, ta, s, log, routes, p);
    NamelessStarts(log.commands, s.round + 1, Distinct(Python, routes), s.request.effort);
    StartedChildren([], false, log.commands, s.round, Distinct(Python, routes), s.request.effort);
    Rerooted([], false, started, s.round + 1);
    ProvidersTraced(started, false, Python, h, task, ta, s, log, routes, p);
    StepContinues(started, false, |s.log.waits|, step, s.round + 1);
    NamelessStays(started, LogOf(step).commands);
  }

  lemma {:induction false} RoundAgree(h: History, task: TaskInput, ta: TaskAssessment, s: Loop)
    requires LoopInv(Python, h, task, ta, s) && TracedLoop([], false, s)
    ensures var py := OneRound(Python, h, task, ta, s);
            StartsNameless(LogOf(py).commands) || StepsAgree(task, ta, py, OneRound(TypeScript, h, task, ta, s))
  {
    var log := Issue(s.log, [Route(s.request)]);
    match AwaitRoutes(h, s.pos)
    case Pending => EarlyAgree(h, task, ta, s, Run(Blocked, log));
    case Raised => EarlyAgree(h, task, ta, s, Run(Aborted, log));
    case Got(routes, p) =>
      if "" in routes {
        RouteTraced([], false, s, log);
        NamelessRound(h, task, ta, s, Answered(log, routes), routes, p);
      } else {
        DistinctAgree(routes);
        if Distinct(Python, routes) == [] {
          EarlyAgree(h, task, ta, s, Run(Finished(GaveUp(ta, s.attempts)), Answered(log, routes)));
        } else {
          ProvidersAgree(h, task, ta, s, Answered(log, routes), routes, p);
        }
      }
  }

  lemma {:induction false} RoundsAgree(h: History, task: TaskInput, ta: TaskAssessment, s: Loop)
    requires LoopInv(Python, h, task, ta, s) && TracedLoop([], false, s) && s.round <= task.maxAttempts
    ensures var py := Rounds(Python, h, task, ta, s);
            StartsNameless(py.log.commands) || Agree(task, ta, py, Rounds(TypeScript, h, task, ta, s))
    decreases task.maxAttempts - s.round
  {
    if s.round >= task.maxAttempts {
      EarlyAgree(h, task, ta, s, Run(Finished(GaveUp(ta, s.attempts)), s.log));
    } else {
      RoundAgree(h, task, ta, s);
      RoundKeeps(Python, h, task, ta, s);
      RoundTraced([], false, Python, h, task, ta, s);
      var step := OneRound(Python, h, task, ta, s);
      if step.Again? {
        if StartsNameless(step.loop.log.commands) {
          StaysNameless(h, task, ta, step.loop);
        } else {
          RoundsAgree(h, task, ta, step.loop);
        }
      }
    }
  }

  /** A run that executed a nameless provider goes on having done so. */
  lemma {:induction false} StaysNameless(h: History, task: TaskInput, ta: TaskAssessment, s: Loop)
    requires s.pos <= |h| && s.round <= task.maxAttempts && TracedLoop([], false, s)
    requires StartsNameless(s.log.commands)
    ensures StartsNameless(Rounds(Python, h, task, ta, s).log.commands)
  {
    RoundsTraced(s.log.commands, false, Python, h, task, ta, s);
    NamelessStays(s.log.commands, Rounds(Python, h, task, ta, s).log.commands);
  }

  lemma {:induction false} BehindGateAgree(h: History, task: TaskInput, ta: TaskAssessment, p: nat)
    requires p <= |h| && GatePassed(GateWait(h, p))
    ensures var s := LoopBehind(task, GateWait(h, p));
            var py := Rounds(Python, h, task, ta, s);
            StartsNameless(py.log.commands) || Agree(task, ta, py, Rounds(TypeScript, h, task, ta, s))
  {
    var gate := GateWait(h, p);
    GateWaitFresh(h, p);
    FirstLoopInv(Python, h, task, ta, gate[0].release + 1, GateLog(gate));
    GateTraced(false, 0);
    RoundsAgree(h, task, ta, LoopBehind(task, gate));
  }

  lemma {:induction false} GatedAgree(h: History, task: TaskInput, ta: TaskAssessment, p: nat)
    requires p <= |h| && ta.humanGateRequired
    ensures var py := AfterAssessment(Python, h, task, ta, p);
            StartsNameless(py.log.commands) || Agree(task, ta, py, AfterAssessment(TypeScript, h, task, ta, p))
  {
    if GatePassed(GateWait(h, p)) {
      GatePasses(Python, h, task, ta, p);
      GatePasses(TypeScript, h, task, ta, p);
      BehindGateAgree(h, task, ta, p);
    }
  }

  lemma {:induction false} AssessedAgree(h: History, task: TaskInput, ta: TaskAssessment, p: nat)
    requires p <= |h|
    ensures var py := AfterAssessment(Python, h, task, ta, p);
            StartsNameless(py.log.commands) || Agree(task, ta, py, AfterAssessment(TypeScript, h, task, ta, p))
  {
    if ta.humanGateRequired {
      GatedAgree(h, task, ta, p);
    } else {
      FirstLoopInv(Python, h, task, ta, p, STARTED);
      OpeningTraced(false);
      RoundsAgree(h, task, ta, FirstLoop(task, p, STARTED));
    }
  }

  /** How the runs of the two editions compare on one history.  Unless Python executed a
      provider without a name, they run the same rounds, agree on which runs complete and on
      everything about those.  They differ exactly when Python did, or when the last round
      is one that `Differ` describes. */
  ghost predicate SamePolicy(h: History, task: TaskInput, py: Run, ts: Run) {
    && (!StartsNameless(py.log.commands) ==>
          py.log.rounds == ts.log.rounds && (Completed(py) <==> Completed(ts)) && (Completed(py) ==> py == ts))
    && (py != ts <==>
          || StartsNameless(py.log.commands)
          || (AssessmentIn(h).Got? && EndsInDifference(task, AssessmentIn(h).value, py.log)))
  }

  /** One policy, on every history.  In particular, with waiting off and named providers the
      editions produce the same run: the same commands, requests and effort values, and the
      same result. */
  lemma {:induction false} OnePolicy(h: History, task: TaskInput)
    ensures var py, ts := Execute(Python, h, task), Execute(TypeScript, h, task);
            && SamePolicy(h, task, py, ts)
            && (!task.waitForReview && !StartsNameless(py.log.commands) ==> py == ts)
  {
    TypeScriptNames(h, task);
    match AwaitAssessment(h, 0)
    case Got(ta, p) => AssessedAgree(h, task, ta, p);
    case _ => OpeningTraced(true);
  }

  lemma {:induction false} DistinctIsNamed(routes: seq<string>)
    ensures "" !in Distinct(TypeScript, routes)
  {
    if routes != [] {
      DistinctIsNamed(routes[..|routes| - 1]);
    }
  }

  /** TypeScript never executes a provider without a name. */
  lemma {:induction false} TypeScriptNames(h: History, task: TaskInput)
    ensures !StartsNameless(Execute(TypeScript, h, task).log.commands)
  {
    forall i | 0 <= i < |h| && h[i].job.Routed? ensures "" !in Distinct(TypeScript, h[i].job.routes) {
      DistinctIsNamed(h[i].job.routes);
    }
    RunTraced(true, TypeScript, h, task);
  }

  /** Nor does Python, if every provider in the history's routing answers has a name, as every
      executor descriptor's does. */
  lemma {:induction false} PythonNames(h: History, task: TaskInput)
    requires forall i :: 0 <= i < |h| && h[i].job.Routed? ==> "" !in h[i].job.routes
    ensures !StartsNameless(Execute(Python, h, task).log.commands)
  {
    RunTraced(true, Python, h, task);
  }

  /** A history on which the two do differ: an unverified `accept` under task review, with
      a reviewer available.  Python returns at once, TypeScript waits. */
  lemma {:induction false} EditionsDoDiffer(policy: Policy, ta: TaskAssessment, task: TaskInput, report: ChildReport)
    requires ta.reviewRequired && !ta.humanGateRequired && task.waitForReview && task.maxAttempts > 0
    requires report.assessment == AssessResult(policy, R2, 0, false, ResultAnswers(0.99, 0.99, ACCEPT))
    ensures var h := [Activation([], TaskAssessed(ta)), Activation([], Routed(["codex"])),
                      Activation([], ChildDone(0, report))];
            Execute(Python, h, task).outcome.Finished? && Execute(TypeScript, h, task).outcome.Blocked?
  {
    InterventionNames();
    var h := [Activation([], TaskAssessed(ta)), Activation([], Routed(["codex"])),
              Activation([], ChildDone(0, report))];
    var s := FirstLoop(task, 1, STARTED);
    SingleRound(Python, h, task, ta, s, "codex", report);
    SingleRound(TypeScript, h, task, ta, s, "codex", report);
    assert AwaitSignal(h, 3) == None;
  }
}
