/** The second implementation of the loop (apps/worker/src/workflows.ts).  The function's
    closure variables carry the same names as the Python object's fields, and the signal
    handler and the awaits behave alike, so both are the methods of one host object. */
module TypeScriptWorkflow {
  import opened Common
  import opened Intelligence
  import opened TaskWorkflow

  function RankComponents(a: AttemptResult): (r: seq<real>)
    ensures |r| == 4
  {
    [if a.accepted then 1.0 else 0.0, if a.assessment.integrationReady then 1.0 else 0.0,
     a.assessment.semantic, a.assessment.evidence]
  }

  method BetterAttempt(left: AttemptResult, right: AttemptResult) returns (better: AttemptResult)
    ensures better == if Below(left, right) then right else left
  {
    var leftRank, rightRank := RankComponents(left), RankComponents(right);
    for index := 0 to |leftRank|
      invariant forall i :: 0 <= i < index ==> leftRank[i] == rightRank[i]
    {
      var diff := rightRank[index] - leftRank[index];
      assert index > 0 ==> leftRank[0] == rightRank[0];
      assert index > 1 ==> leftRank[1] == rightRank[1];
      assert index > 2 ==> leftRank[2] == rightRank[2];
      if diff > 0.0 {
        return right;
      }
      if diff < 0.0 {
        return left;
      }
    }
    assert leftRank[0] == rightRank[0] && leftRank[1] == rightRank[1];
    assert leftRank[2] == rightRank[2] && leftRank[3] == rightRank[3];
    return left;
  }

  /** Folding the pairwise choice finds the first attempt of maximal rank. */
  method Reduce(attempts: seq<AttemptResult>) returns (best: AttemptResult)
    requires attempts != []
    ensures best == Best(attempts)
  {
    best := attempts[0];
    for i := 1 to |attempts|
      invariant best == Best(attempts[..i])
    {
      best := BetterAttempt(best, attempts[i]);
      assert attempts[..i + 1][..i] == attempts[..i];
    }
    assert attempts[..|attempts|] == attempts;
  }

  method SelectDistinct(routes: seq<string>) returns (providers: seq<string>)
    ensures providers == Distinct(TypeScript, routes)
  {
    providers := [];
    for i := 0 to |routes|
      invariant providers == Distinct(TypeScript, routes[..i])
    {
      assert routes[..i + 1][..i] == routes[..i];
      var provider := routes[i];
      if provider != "" && provider !in providers {
        providers := providers + [provider];
      }
    }
    assert routes[..|routes|] == routes;
  }

  method AfterRound(host: DurableTaskWorkflow, task: TaskInput, ta: TaskAssessment, ghost s: Loop,
                    attempts: seq<AttemptResult>, best: AttemptResult, excluded: seq<string>,
                    preferred: seq<string>, effort: string)
    returns (stop: Option<Outcome>, excluded': seq<string>, preferred': seq<string>, effort': string)
    requires host.Valid()
    requires s == Loop(host.cursor, host.round, attempts, Request(effort, excluded, preferred), host.log)
    modifies host`cursor, host`reviewDecision, host`log, host`phase
    ensures host.Valid()
    ensures Realizes(Conclude(host.history, ta, s, best, Decide(TypeScript, ta, best, task.waitForReview)), stop,
                     Loop(host.cursor, host.round, attempts, Request(effort', excluded', preferred'), host.log),
                     host.log)
    ensures stop.Some? ==> host.PhaseTells(stop.value)
  {
    excluded', preferred', effort' := excluded, preferred, effort;
    ghost var verdict := Decide(TypeScript, ta, best, task.waitForReview);
    var semantic := best.assessment;
    var integrationReady := semantic.integrationReady && best.verification.complete && best.returnCode == 0;
    var gate := CompletionGate(integrationReady, ta.reviewRequired, best.reviewRequired, false);
    if gate == GateComplete {
      assert verdict == Accept;
      var outcome := host.Finish(Complete, ta, attempts, Some(best.provider), None);
      return Some(outcome), excluded', preferred', effort';
    }
    var reviewRequired := ta.reviewRequired || best.reviewRequired;
    var intervention := if semantic.intervention == None then HUMAN_REVIEW else semantic.intervention.value;
    var needsReview :=
      reviewRequired && (integrationReady || intervention == HUMAN_REVIEW || intervention == ACCEPT);
    InterventionNames();
    if needsReview {
      assert verdict == if !task.waitForReview then StopForReview
                        else AskReviewer(if integrationReady then Complete else ReviewRequired);
      var outcome :=
        host.ReviewOrStop(task, ta, s, attempts, best, if integrationReady then Complete else ReviewRequired);
      return Some(outcome), excluded', preferred', effort';
    }
    stop := None;
    if intervention == SWITCH_EXECUTOR {
      if best.provider !in excluded {
        excluded' := excluded + [best.provider];
      }
      preferred' := [];
    } else if intervention == CORRECT_SAME {
      preferred' := [best.provider];
    } else if intervention == STRONGER_MODEL {
      effort' := StrongerEffort(effort);
      preferred' := [best.provider];
    } else {
      var outcome := host.Finish(ReviewRequired, ta, attempts, Some(best.provider), None);
      stop := Some(outcome);
    }
  }

  /** The children have reported: the best report decides. */
  method Report(host: DurableTaskWorkflow, task: TaskInput, ta: TaskAssessment, ghost s: Loop,
                current: seq<AttemptResult>, attempts: seq<AttemptResult>, excluded: seq<string>,
                preferred: seq<string>, effort: string)
    returns (stop: Option<Outcome>, attempts': seq<AttemptResult>, excluded': seq<string>, preferred': seq<string>,
             effort': string)
    requires host.Valid() && current != []
    requires s == Loop(host.cursor, host.round, attempts + current, Request(effort, excluded, preferred), s.log)
    modifies host`cursor, host`reviewDecision, host`log, host`phase
    ensures host.Valid()
    ensures Realizes(Conclude(host.history, ta, s, Best(current),
                              Decide(TypeScript, ta, Best(current), task.waitForReview)), stop,
                     Loop(host.cursor, host.round, attempts', Request(effort', excluded', preferred'), host.log),
                     host.log)
    ensures stop.Some? ==> host.PhaseTells(stop.value)
  {
    host.log := s.log;
    attempts' := attempts + current;
    var best := Reduce(current);
    stop, excluded', preferred', effort' :=
      AfterRound(host, task, ta, s, attempts', best, excluded, preferred, effort);
  }

  method PlayProviders(host: DurableTaskWorkflow, task: TaskInput, ta: TaskAssessment, ghost s: Loop,
                       ghost routes: seq<string>, providers: seq<string>, attempts: seq<AttemptResult>,
                       excluded: seq<string>, preferred: seq<string>, effort: string)
    returns (stop: Option<Outcome>, attempts': seq<AttemptResult>, excluded': seq<string>, preferred': seq<string>,
             effort': string)
    requires host.Valid() && host.round > 0 && s.pos <= host.cursor && providers == Distinct(TypeScript, routes) != []
    requires s == Loop(s.pos, host.round - 1, attempts, Request(effort, excluded, preferred), s.log)
    modifies host`cursor, host`reviewDecision, host`log, host`phase, host`activeProviders
    ensures host.Valid()
    ensures Realizes(RunProviders(TypeScript, host.history, task, ta, s, old(host.log), routes, old(host.cursor)), stop,
                     Loop(host.cursor, host.round, attempts', Request(effort', excluded', preferred'), host.log),
                     host.log)
    ensures stop.Some? ==> host.PhaseTells(stop.value)
  {
    attempts', excluded', preferred', effort' := attempts, excluded, preferred, effort;
    host.phase := Executing;
    var gathered := host.RunChildren(providers, effort);
    if !gathered.Got? {
      return Some(if gathered.Pending? then Blocked else Aborted), attempts', excluded', preferred', effort';
    }
    stop, attempts', excluded', preferred', effort' :=
      Report(host, task, ta, AfterChildren(s, host.log, routes, providers, gathered.value, host.cursor),
             gathered.value, attempts, excluded, preferred, effort);
  }

  method PlayRound(host: DurableTaskWorkflow, task: TaskInput, ta: TaskAssessment, attempts: seq<AttemptResult>,
                   excluded: seq<string>, preferred: seq<string>, effort: string)
    returns (exit: Exit, attempts': seq<AttemptResult>, excluded': seq<string>, preferred': seq<string>,
             effort': string)
    requires host.Valid()
    modifies host`cursor, host`reviewDecision, host`log, host`phase, host`activeProviders, host`round
    ensures host.Valid()
    ensures var step := OneRound(TypeScript, host.history, task, ta,
              Loop(old(host.cursor), old(host.round), attempts, Request(effort, excluded, preferred), old(host.log)));
            match exit
            case Exhausted => attempts' == attempts && step == Done(Run(Finished(GaveUp(ta, attempts)), host.log))
            case Stop(outcome) => step == Done(Run(outcome, host.log)) && host.PhaseTells(outcome)
            case Continue =>
              step == Again(Loop(host.cursor, host.round, attempts', Request(effort', excluded', preferred'), host.log))
  {
    attempts', excluded', preferred', effort' := attempts, excluded, preferred, effort;
    ghost var s := Loop(host.cursor, host.round, attempts, Request(effort, excluded, preferred), host.log);
    host.round := host.round + 1;
    host.phase := Routing;
    var routed := host.ExecuteRouting(effort, excluded, preferred);
    if !routed.Got? {
      return Stop(if routed.Pending? then Blocked else Aborted), attempts', excluded', preferred', effort';
    }
    var providers := SelectDistinct(routed.value);
    if providers == [] {
      return Exhausted, attempts', excluded', preferred', effort';
    }
    var stop: Option<Outcome>;
    stop, attempts', excluded', preferred', effort' :=
      PlayProviders(host, task, ta, s, routed.value, providers, attempts, excluded, preferred, effort);
    exit := if stop.Some? then Stop(stop.value) else Continue;
  }

  method RunRounds(host: DurableTaskWorkflow, task: TaskInput, ta: TaskAssessment) returns (outcome: Outcome)
    requires host.Valid() && host.round == 0
    modifies host`cursor, host`reviewDecision, host`log, host`phase, host`activeProviders, host`round
    ensures Run(outcome, host.log)
         == Rounds(TypeScript, host.history, task, ta, FirstLoop(task, old(host.cursor), old(host.log)))
    ensures host.PhaseTells(outcome)
  {
    var attempts, excluded, preferred, effort := [], [], task.preferred, task.effort;
    ghost var s := FirstLoop(task, host.cursor, host.log);
    while host.round < task.maxAttempts
      invariant host.Valid()
      invariant s == Loop(host.cursor, host.round, attempts, Request(effort, excluded, preferred), host.log)
      invariant Rounds(TypeScript, host.history, task, ta, s)
             == Rounds(TypeScript, host.history, task, ta, FirstLoop(task, old(host.cursor), old(host.log)))
    {
      var exit: Exit;
      exit, attempts, excluded, preferred, effort := PlayRound(host, task, ta, attempts, excluded, preferred, effort);
      if exit.Stop? {
        return exit.outcome;
      }
      if exit.Exhausted? {
        break;
      }
      s := Loop(host.cursor, host.round, attempts, Request(effort, excluded, preferred), host.log);
    }
    var selected := None;
    if attempts != [] {
      var best := Reduce(attempts);
      selected := Some(best.provider);
    }
    outcome := host.Finish(Failed, ta, attempts, selected, None);
  }

  method RunAssessed(host: DurableTaskWorkflow, task: TaskInput, ta: TaskAssessment) returns (outcome: Outcome)
    requires host.Valid() && host.round == 0 && host.log == STARTED && host.phase == Assessing
    modifies host`cursor, host`reviewDecision, host`log, host`phase, host`activeProviders, host`round
    ensures Run(outcome, host.log) == AfterAssessment(TypeScript, host.history, task, ta, old(host.cursor))
    ensures host.PhaseTells(outcome)
  {
    if ta.humanGateRequired {
      var decision := host.WaitForReview();
      if decision == None {
        return Blocked;
      }
      if !decision.value.approved {
        outcome := host.Finish(Rejected, ta, [], None, Some(decision.value.note));
        return;
      }
    }
    outcome := RunRounds(host, task, ta);
  }

  method RunTask(host: DurableTaskWorkflow, task: TaskInput) returns (outcome: Outcome)
    requires host.Fresh()
    modifies host
    ensures Run(outcome, host.log) == Execute(TypeScript, host.history, task)
    ensures host.PhaseTells(outcome)
  {
    host.phase := Assessing;
    var assessed := host.ExecuteAssessment();
    match assessed {
      case Pending => return Blocked;
      case Raised => return Aborted;
      case Got(ta, _) =>
        host.risk := Some(ta.finalRisk);
        outcome := RunAssessed(host, task, ta);
    }
  }
}
