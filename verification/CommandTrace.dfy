/** What a run of the policy loop asks of its host, in order: routing, children, waits. */
module CommandTrace {
  import opened Common
  import opened Intelligence
  import opened TaskWorkflow

  // ------------------------------------------------------------- vocabulary

  /** The review waits that were opened, released or not. */
  function Openings(commands: seq<Command>): nat {
    if commands == [] then 0
    else Openings(commands[..|commands| - 1]) + if Last(commands) == BeginWait then 1 else 0
  }

  /** No two start commands carry the same round and index. */
  ghost predicate StartsDistinct(commands: seq<Command>, upTo: nat) {
    && (forall i :: 0 <= i < |commands| && commands[i].StartChild? ==> commands[i].round <= upTo)
    && (forall i, j :: 0 <= i < j < |commands| && commands[i].StartChild? && commands[j].StartChild? ==>
          commands[i].round != commands[j].round || commands[i].index != commands[j].index)
  }

  /** A child was started for a provider without a name. */
  predicate StartsNameless(commands: seq<Command>) {
    exists i :: 0 <= i < |commands| && commands[i].StartChild? && commands[i].provider == ""
  }

  /** Every provider that a routing answer of the history makes this edition execute has a name. */
  ghost predicate NamedProviders(e: Edition, h: History) {
    forall i :: 0 <= i < |h| && h[i].job.Routed? ==> "" !in Distinct(e, h[i].job.routes)
  }

  /** Commands that continue `start`, with distinct children up to a round. */
  ghost predicate Traced(start: seq<Command>, named: bool, commands: seq<Command>, upTo: nat) {
    && start <= commands
    && StartsDistinct(commands, upTo)
    && (named ==> !StartsNameless(commands))
  }

  /** Between rounds every opened wait has been released. */
  ghost predicate TracedLoop(start: seq<Command>, named: bool, s: Loop) {
    Traced(start, named, s.log.commands, s.round) && Openings(s.log.commands) == |s.log.waits|
  }

  /** A run opens at most one wait more than it had released before, and leaves one open
      only if it is blocked on it. */
  ghost predicate TracedRun(start: seq<Command>, named: bool, waits: nat, run: Run, upTo: nat) {
    && Traced(start, named, run.log.commands, upTo)
    && |run.log.waits| <= Openings(run.log.commands) <= waits + 1
    && Openings(run.log.commands) == |run.log.waits| + if Waiting(run) then 1 else 0
  }

  predicate Waiting(run: Run) {
    run.outcome.Blocked? && run.log.commands != [] && Last(run.log.commands) == BeginWait
  }

  ghost predicate TracedStep(start: seq<Command>, named: bool, waits: nat, step: Step, upTo: nat) {
    match step
    case Done(run) => TracedRun(start, named, waits, run, upTo)
    case Again(s) => TracedLoop(start, named, s) && s.round == upTo && |s.log.waits| == waits
  }

  function LogOf(step: Step): Log {
    match step case Done(run) => run.log case Again(s) => s.log
  }

  // ------------------------------------------------------------- one more command

  lemma {:induction false} OneMore(commands: seq<Command>, c: Command)
    ensures Openings(commands + [c]) == Openings(commands) + if c == BeginWait then 1 else 0
  {
    assert (commands + [c])[..|commands|] == commands;
  }

  lemma {:induction false} NoneOpened(commands: seq<Command>, more: seq<Command>)
    requires forall i :: 0 <= i < |more| ==> more[i] != BeginWait
    ensures Openings(commands + more) == Openings(commands)
  {
    if more == [] {
      assert commands + more == commands;
    } else {
      var front := more[..|more| - 1];
      NoneOpened(commands, front);
      OneMore(commands + front, Last(more));
      assert commands + front + [Last(more)] == commands + more;
    }
  }

  lemma {:induction false} QuietCommand(start: seq<Command>, named: bool, commands: seq<Command>, upTo: nat, c: Command)
    requires Traced(start, named, commands, upTo) && !c.StartChild?
    ensures Traced(start, named, commands + [c], upTo)
  {}

  lemma {:induction false} StartedChildren(start: seq<Command>, named: bool, commands: seq<Command>, upTo: nat,
                                           providers: seq<string>, effort: string)
    requires Traced(start, named, commands, upTo) && (named ==> "" !in providers)
    ensures Traced(start, named, commands + StartCommands(upTo + 1, providers, effort), upTo + 1)
    ensures Openings(commands + StartCommands(upTo + 1, providers, effort)) == Openings(commands)
  {
    NoneOpened(commands, StartCommands(upTo + 1, providers, effort));
  }

  lemma {:induction false} LaterRound(start: seq<Command>, named: bool, commands: seq<Command>, upTo: nat, n: nat)
    requires Traced(start, named, commands, upTo) && upTo <= n
    ensures Traced(start, named, commands, n)
  {}

  lemma {:induction false} Rerooted(start: seq<Command>, named: bool, commands: seq<Command>, upTo: nat)
    requires Traced(start, named, commands, upTo)
    ensures Traced(commands, named, commands, upTo)
  {}

  lemma {:induction false} StepContinues(start: seq<Command>, named: bool, waits: nat, step: Step, upTo: nat)
    requires TracedStep(start, named, waits, step, upTo)
    ensures start <= LogOf(step).commands
  {}

  lemma {:induction false} NamelessStarts(commands: seq<Command>, round: nat, providers: seq<string>, effort: string)
    requires "" in providers
    ensures StartsNameless(commands + StartCommands(round, providers, effort))
  {
    var i :| 0 <= i < |providers| && providers[i] == "";
    var all := commands + StartCommands(round, providers, effort);
    assert all[|commands| + i] == StartCommands(round, providers, effort)[i];
  }

  // ------------------------------------------------------------- one round

  lemma {:induction false} ConcludeTraced(start: seq<Command>, named: bool, h: History, ta: TaskAssessment, s: Loop,
                                          best: AttemptResult, verdict: Verdict)
    requires s.pos <= |h| && TracedLoop(start, named, s)
    ensures TracedStep(start, named, |s.log.waits|, Conclude(h, ta, s, best, verdict), s.round)
  {
    QuietCommand(start, named, s.log.commands, s.round, BeginWait);
    OneMore(s.log.commands, BeginWait);
  }

  lemma {:induction false} LastIsNoWait(commands: seq<Command>, more: seq<Command>)
    requires more != [] && forall i :: 0 <= i < |more| ==> more[i] != BeginWait
    ensures Last(commands + more) != BeginWait
  {}

  lemma {:induction false} ProvidersTraced(start: seq<Command>, named: bool, e: Edition, h: History, task: TaskInput,
                                           ta: TaskAssessment, s: Loop, log: Log, routes: seq<string>, p: nat)
    requires s.pos <= p <= |h| && Distinct(e, routes) != []
    requires log.waits == s.log.waits && Openings(log.commands) == |log.waits|
    requires Traced(start, named, log.commands + StartCommands(s.round + 1, Distinct(e, routes), s.request.effort),
                    s.round + 1)
    ensures TracedStep(start, named, |s.log.waits|, RunProviders(e, h, task, ta, s, log, routes, p), s.round + 1)
  {
    var providers := Distinct(e, routes);
    var starts := StartCommands(s.round + 1, providers, s.request.effort);
    var log' := Issue(log, starts);
    NoneOpened(log.commands, starts);
    LastIsNoWait(log.commands, starts);
    match AwaitChildren(h, p, providers, EmptySlots(|providers|))
    case Got(results, q) =>
      ConcludeTraced(start, named, h, ta, AfterChildren(s, log', routes, providers, results, q), Best(results),
                     Decide(e, ta, Best(results), task.waitForReview));
    case _ =>
  }

  /** The routing request is out; whatever ends the round before its children leaves this. */
  lemma {:induction false} RouteTraced(start: seq<Command>, named: bool, s: Loop, log: Log)
    requires TracedLoop(start, named, s) && log == Issue(s.log, [Route(s.request)])
    ensures Traced(start, named, log.commands, s.round) && Traced(start, named, log.commands, s.round + 1)
    ensures Openings(log.commands) == |log.waits| == |s.log.waits| && Last(log.commands) != BeginWait
  {
    QuietCommand(start, named, s.log.commands, s.round, Route(s.request));
    LaterRound(start, named, log.commands, s.round, s.round + 1);
    OneMore(s.log.commands, Route(s.request));
  }

  lemma {:induction false} RoutedTraced(start: seq<Command>, named: bool, e: Edition, h: History, task: TaskInput,
                                        ta: TaskAssessment, s: Loop, log: Log, routes: seq<string>, p: nat)
    requires s.pos <= p <= |h| && Distinct(e, routes) != [] && (named ==> "" !in Distinct(e, routes))
    requires log.waits == s.log.waits && Openings(log.commands) == |log.waits|
    requires Traced(start, named, log.commands, s.round)
    ensures TracedStep(start, named, |s.log.waits|, RunProviders(e, h, task, ta, s, log, routes, p), s.round + 1)
  {
    StartedChildren(start, named, log.commands, s.round, Distinct(e, routes), s.request.effort);
    ProvidersTraced(start, named, e, h, task, ta, s, log, routes, p);
  }

  lemma {:induction false} RoundTraced(start: seq<Command>, named: bool, e: Edition, h: History, task: TaskInput,
                                       ta: TaskAssessment, s: Loop)
    requires s.pos <= |h| && TracedLoop(start, named, s) && (named ==> NamedProviders(e, h))
    ensures TracedStep(start, named, |s.log.waits|, OneRound(e, h, task, ta, s), s.round + 1)
  {
    var log := Issue(s.log, [Route(s.request)]);
    RouteTraced(start, named, s, log);
    match AwaitRoutes(h, s.pos)
    case Got(routes, p) =>
      assert h[p - 1].job == Routed(routes);
      if Distinct(e, routes) != [] {
        RoutedTraced(start, named, e, h, task, ta, s, Answered(log, routes), routes, p);
      }
    case _ =>
  }

  // ------------------------------------------------------------- whole runs

  lemma {:induction false} RoundsTraced(start: seq<Command>, named: bool, e: Edition, h: History, task: TaskInput,
                                        ta: TaskAssessment, s: Loop)
    requires s.pos <= |h| && s.round <= task.maxAttempts && TracedLoop(start, named, s)
    requires named ==> NamedProviders(e, h)
    ensures TracedRun(start, named, |s.log.waits|, Rounds(e, h, task, ta, s), task.maxAttempts)
    decreases task.maxAttempts - s.round
  {
    if s.round < task.maxAttempts {
      RoundTraced(start, named, e, h, task, ta, s);
      match OneRound(e, h, task, ta, s)
      case Again(s') => RoundsTraced(start, named, e, h, task, ta, s');
      case Done(run) => LaterRound(start, named, run.log.commands, s.round + 1, task.maxAttempts);
    }
  }

  /** The first commands of a run: the assessment, and the consequence gate's wait. */
  function Opening(h: History): seq<Command> {
    match AwaitAssessment(h, 0)
    case Got(ta, _) => if ta.humanGateRequired then [Assess, BeginWait] else [Assess]
    case _ => [Assess]
  }

  /** Every run begins with the assessment, and behind the consequence gate with its wait;
      its children are distinct; it opens at most two waits, and all but one that it is
      blocked on have been released. */
  lemma {:induction false} RunTraced(named: bool, e: Edition, h: History, task: TaskInput)
    requires named ==> NamedProviders(e, h)
    ensures TracedRun(Opening(h), named, 1, Execute(e, h, task), task.maxAttempts)
  {
    OpeningTraced(named);
    match AwaitAssessment(h, 0)
    case Got(ta, p) =>
      if ta.humanGateRequired {
        GatedTraced(named, e, h, task, ta, p);
      } else {
        RoundsTraced([Assess], named, e, h, task, ta, FirstLoop(task, p, STARTED));
      }
    case _ =>
  }

  lemma {:induction false} OpeningTraced(named: bool)
    ensures Traced([Assess], named, [Assess], 0) && Openings([Assess]) == 0
  {
    OneMore([], Assess);
    assert [] + [Assess] == [Assess];
  }

  lemma {:induction false} GateTraced(named: bool, upTo: nat)
    ensures Traced([Assess, BeginWait], named, [Assess, BeginWait], upTo) && Openings([Assess, BeginWait]) == 1
  {
    OpeningTraced(named);
    OneMore([Assess], BeginWait);
    assert [Assess] + [BeginWait] == [Assess, BeginWait];
  }

  lemma {:induction false} GatedTraced(named: bool, e: Edition, h: History, task: TaskInput, ta: TaskAssessment, p: nat)
    requires p <= |h| && ta.humanGateRequired && (named ==> NamedProviders(e, h))
    ensures TracedRun([Assess, BeginWait], named, 1, AfterAssessment(e, h, task, ta, p), task.maxAttempts)
  {
    GateTraced(named, 0);
    GateTraced(named, task.maxAttempts);
    assert [Assess] + [BeginWait] == [Assess, BeginWait];
    match Review(h, p, STARTED)
    case Unreleased(_) =>
    case Released(log, decision, q) =>
      if decision.approved {
        RoundsTraced([Assess, BeginWait], named, e, h, task, ta, FirstLoop(task, q, log));
      }
  }

  lemma {:induction false} NamelessStays(commands: seq<Command>, longer: seq<Command>)
    requires commands <= longer && StartsNameless(commands)
    ensures StartsNameless(longer)
  {
    var i :| 0 <= i < |commands| && commands[i].StartChild? && commands[i].provider == "";
    assert longer[i] == commands[i];
  }
}
