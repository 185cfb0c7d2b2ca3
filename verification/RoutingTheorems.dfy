/** The policy loop against a fixed registry: exclusions, switches, writers and child ids. */
module RoutingTheorems {
  import opened Common
  import opened Intelligence
  import opened TaskWorkflow
  import opened CommandTrace
  import opened WorkflowTheorems
  import opened RoundTrace
  import opened Registry

  /** Every round's routes are what the routing activity answered; which executors were
      available may differ from one round to the next. */
  ghost predicate RoutedBy(plugins: seq<Descriptor>, probes: seq<Probe>, task: TaskInput, ta: TaskAssessment,
                           rounds: seq<RoundLog>)
  {
    && |probes| == |rounds|
    && forall k :: 0 <= k < |rounds| ==>
         rounds[k].routes == RouteActivity(plugins, probes[k], task, ta, rounds[k].request)
  }

  /** Every routing answer that the run received is what the routing activity makes of the
      request it answers. */
  ghost predicate AnsweredBy(plugins: seq<Descriptor>, probes: seq<Probe>, task: TaskInput, ta: TaskAssessment,
                             log: Log)
  {
    var requests := Requests(log.commands);
    && |probes| == |log.answers| <= |requests|
    && forall k :: 0 <= k < |log.answers| ==>
         log.answers[k] == RouteActivity(plugins, probes[k], task, ta, requests[k])
  }

  /** The environment of a run: its assessment, and a registry behind its routing answers. */
  ghost predicate RegistryRun(e: Edition, h: History, task: TaskInput, plugins: seq<Descriptor>, probes: seq<Probe>) {
    && AssessmentIn(h).Got?
    && AnsweredBy(plugins, probes, task, AssessmentIn(h).value, Execute(e, h, task).log)
  }

  lemma {:induction false} ReportedRoutes(e: Edition, h: History, plugins: seq<Descriptor>, probes: seq<Probe>,
                                          task: TaskInput, ta: TaskAssessment, log: Log)
    requires InRounds(e, h, task, ta, log) && AnsweredBy(plugins, probes, task, ta, log)
    ensures |log.rounds| <= |probes| && RoutedBy(plugins, probes[..|log.rounds|], task, ta, log.rounds)
  {}

  predicate EndsInSwitch(e: Edition, task: TaskInput, ta: TaskAssessment, r: RoundLog) {
    r.results != [] && VerdictOf(e, task, ta, r) == Switch
  }

  function Switches(e: Edition, task: TaskInput, ta: TaskAssessment, rounds: seq<RoundLog>): nat {
    if rounds == [] then 0
    else Switches(e, task, ta, rounds[..|rounds| - 1]) + if EndsInSwitch(e, task, ta, Last(rounds)) then 1 else 0
  }

  /** The exclusions in force after the given rounds. */
  function ExcludedAfter(e: Edition, task: TaskInput, ta: TaskAssessment, rounds: seq<RoundLog>): seq<string> {
    if rounds == [] || Last(rounds).results == [] then []
    else NextRequest(e, task, ta, Last(rounds)).excluded
  }

  lemma {:induction false} BestIsAProvider(r: RoundLog)
    requires RoundOk(r)
    ensures BestOf(r).provider in r.providers
  {
    assert BestOf(r) == r.results[BestIndex(r.results)];
  }

  /** Providers of a routed round are registered and not excluded. */
  lemma {:induction false} RoundStaysInside(plugins: seq<Descriptor>, probe: Probe, task: TaskInput,
                                            ta: TaskAssessment, r: RoundLog)
    requires RoundOk(r) && r.routes == RouteActivity(plugins, probe, task, ta, r.request)
    ensures forall p :: p in r.providers ==> p in ProviderSet(plugins) && p !in r.request.excluded
    ensures |r.results| <= Fanout(task, ta)
  {
    RouteHonoursExclusions(plugins, probe, task, ta, r.request);
  }

  /** A switch adds its best provider, which no earlier switch had dropped. */
  lemma {:induction false} ExcludedStep(e: Edition, task: TaskInput, ta: TaskAssessment, r: RoundLog,
                                        names: set<string>)
    requires RoundOk(r) && NoRepeats(r.request.excluded)
    requires forall p :: p in r.request.excluded ==> p in names
    requires forall p :: p in r.providers ==> p in names && p !in r.request.excluded
    ensures var excluded := NextRequest(e, task, ta, r).excluded;
            && NoRepeats(excluded)
            && (forall p :: p in excluded ==> p in names)
            && |excluded| == |r.request.excluded| + if EndsInSwitch(e, task, ta, r) then 1 else 0
  {
    BestIsAProvider(r);
  }

  /** So many different exclusions, all of them registered. */
  ghost predicate Exclusions(excluded: seq<string>, count: nat, names: set<string>) {
    NoRepeats(excluded) && |excluded| == count && forall p :: p in excluded ==> p in names
  }

  lemma {:induction false} LastExclusions(e: Edition, task: TaskInput, ta: TaskAssessment, plugins: seq<Descriptor>,
                                          probe: Probe, r: RoundLog, count: nat)
    requires RoundOk(r) && r.routes == RouteActivity(plugins, probe, task, ta, r.request)
    requires Exclusions(r.request.excluded, count, ProviderSet(plugins))
    ensures Exclusions(NextRequest(e, task, ta, r).excluded, count + if EndsInSwitch(e, task, ta, r) then 1 else 0,
                       ProviderSet(plugins))
  {
    RoundStaysInside(plugins, probe, task, ta, r);
    ExcludedStep(e, task, ta, r, ProviderSet(plugins));
  }

  /** Each switch excludes one more provider, registered and new. */
  lemma {:induction false} SwitchesExclude(e: Edition, task: TaskInput, ta: TaskAssessment, plugins: seq<Descriptor>,
                                           probes: seq<Probe>, rounds: seq<RoundLog>)
    requires Chained(e, task, ta, rounds) && RoutedBy(plugins, probes, task, ta, rounds)
    ensures Exclusions(ExcludedAfter(e, task, ta, rounds), Switches(e, task, ta, rounds), ProviderSet(plugins))
    decreases |rounds|
  {
    if rounds != [] {
      var n := |rounds| - 1;
      ChainedPrefix(e, task, ta, rounds, n);
      RoutedPrefix(plugins, probes, task, ta, rounds, n);
      SwitchesExclude(e, task, ta, plugins, probes[..n], rounds[..n]);
      RequestCarriesExclusions(e, task, ta, rounds);
      LastExclusions(e, task, ta, plugins, probes[n], rounds[n], Switches(e, task, ta, rounds[..n]));
    }
  }

  lemma {:induction false} ChainedPrefix(e: Edition, task: TaskInput, ta: TaskAssessment, rounds: seq<RoundLog>, n: nat)
    requires Chained(e, task, ta, rounds) && n <= |rounds|
    ensures Chained(e, task, ta, rounds[..n])
  {}

  lemma {:induction false} RoutedPrefix(plugins: seq<Descriptor>, probes: seq<Probe>, task: TaskInput,
                                        ta: TaskAssessment, rounds: seq<RoundLog>, n: nat)
    requires RoutedBy(plugins, probes, task, ta, rounds) && n <= |rounds|
    ensures RoutedBy(plugins, probes[..n], task, ta, rounds[..n])
  {}

  lemma {:induction false} RequestCarriesExclusions(e: Edition, task: TaskInput, ta: TaskAssessment,
                                                    rounds: seq<RoundLog>)
    requires Chained(e, task, ta, rounds) && rounds != []
    ensures Last(rounds).request.excluded == ExcludedAfter(e, task, ta, rounds[..|rounds| - 1])
  {
    var n := |rounds| - 1;
    if n > 0 {
      assert Follows(e, task, ta, rounds[n - 1], rounds[n]);
      assert Last(rounds[..n]) == rounds[n - 1];
    }
  }

  /** An exclusion is in every later request. */
  lemma {:induction false} ExclusionsGrow(e: Edition, task: TaskInput, ta: TaskAssessment, rounds: seq<RoundLog>,
                                          requests: seq<Request>, answers: seq<seq<string>>, j: nat, k: nat, p: string)
    requires RequestsChained(e, task, ta, rounds, requests) && Reported(e, rounds, requests, answers)
    requires j < k < |requests| && j < |rounds| && rounds[j].results != []
    requires p in NextRequest(e, task, ta, rounds[j]).excluded
    ensures p in requests[k].excluded
    decreases k
  {
    if j < k - 1 {
      ExclusionsGrow(e, task, ta, rounds, requests, answers, j, k - 1, p);
      RequestKeeps(e, task, ta, rounds, requests, answers, k, p);
    } else {
      assert Requested(e, task, ta, rounds, k, requests[k]);
    }
  }

  lemma {:induction false} RequestKeeps(e: Edition, task: TaskInput, ta: TaskAssessment, rounds: seq<RoundLog>,
                                        requests: seq<Request>, answers: seq<seq<string>>, k: nat, p: string)
    requires RequestsChained(e, task, ta, rounds, requests) && Reported(e, rounds, requests, answers)
    requires 0 < k < |requests| && p in requests[k - 1].excluded
    ensures p in requests[k].excluded
  {
    assert Requested(e, task, ta, rounds, k, requests[k]);
    assert rounds[k - 1].request == requests[k - 1];
    NextExcludes(e, task, ta, rounds[k - 1], p);
  }

  lemma {:induction false} NextExcludes(e: Edition, task: TaskInput, ta: TaskAssessment, r: RoundLog, p: string)
    requires r.results != [] && p in r.request.excluded
    ensures p in NextRequest(e, task, ta, r).excluded
  {}

  lemma {:induction false} SwitchExcludes(e: Edition, task: TaskInput, ta: TaskAssessment, r: RoundLog)
    requires EndsInSwitch(e, task, ta, r)
    ensures BestOf(r).provider in NextRequest(e, task, ta, r).excluded
    ensures forall p :: p in r.request.excluded ==> p in NextRequest(e, task, ta, r).excluded
  {}

  /** After round j dropped its best provider no child runs it, and every later request leaves
      strictly fewer providers routable. */
  ghost predicate DroppedForGood(plugins: seq<Descriptor>, log: Log, j: nat)
    requires j < |log.rounds| && log.rounds[j].results != []
  {
    var requests := Requests(log.commands);
    && (forall c :: c in log.commands && c.StartChild? && c.round > j + 1 ==>
          c.provider != BestOf(log.rounds[j]).provider)
    && (forall k :: j < k < |requests| ==> Shrinks(plugins, log.rounds[j].request, requests[k]))
  }

  predicate Shrinks(plugins: seq<Descriptor>, r: Request, later: Request) {
    ProviderSet(plugins) - Names(later.excluded) < ProviderSet(plugins) - Names(r.excluded)
  }

  lemma {:induction false} DroppedLater(e: Edition, task: TaskInput, ta: TaskAssessment, plugins: seq<Descriptor>,
                                        probe: Probe, rounds: seq<RoundLog>, requests: seq<Request>,
                                        answers: seq<seq<string>>, j: nat, k: nat)
    requires RequestsChained(e, task, ta, rounds, requests) && Reported(e, rounds, requests, answers)
    requires j < k < |requests| && j < |rounds| && EndsInSwitch(e, task, ta, rounds[j]) && RoundOk(rounds[j])
    requires rounds[j].routes == RouteActivity(plugins, probe, task, ta, rounds[j].request)
    ensures BestOf(rounds[j]).provider in requests[k].excluded
    ensures Shrinks(plugins, rounds[j].request, requests[k])
  {
    var r, dropped := rounds[j], BestOf(rounds[j]).provider;
    SwitchExcludes(e, task, ta, r);
    ExclusionsGrow(e, task, ta, rounds, requests, answers, j, k, dropped);
    forall p | p in r.request.excluded ensures p in requests[k].excluded {
      ExclusionsGrow(e, task, ta, rounds, requests, answers, j, k, p);
    }
    BestIsAProvider(r);
    RoundStaysInside(plugins, probe, task, ta, r);
    StrictlyFewer(ProviderSet(plugins), r.request.excluded, requests[k].excluded, dropped);
  }

  lemma {:induction false} StrictlyFewer(names: set<string>, before: seq<string>, after: seq<string>, p: string)
    requires (forall q :: q in before ==> q in after) && p in names && p in after && p !in before
    ensures names - Names(after) < names - Names(before)
  {
    assert p in names - Names(before);
  }

  /** A provider dropped by a switch is never executed again: no child of a later round runs
      it, whether or not that round ever reports, and each switch strictly shrinks what can be
      routed. */
  lemma {:induction false} ExclusionIsPermanent(e: Edition, h: History, task: TaskInput, plugins: seq<Descriptor>,
                                                probes: seq<Probe>)
    requires RegistryRun(e, h, task, plugins, probes)
    ensures var log := Execute(e, h, task).log;
            forall j :: 0 <= j < |log.rounds| && EndsInSwitch(e, task, AssessmentIn(h).value, log.rounds[j]) ==>
              DroppedForGood(plugins, log, j)
  {
    var ta, log := AssessmentIn(h).value, Execute(e, h, task).log;
    CommandsAreRounds(e, h, task);
    RoundsAreChained(e, h, task);
    forall j | 0 <= j < |log.rounds| && EndsInSwitch(e, task, ta, log.rounds[j])
      ensures DroppedForGood(plugins, log, j)
    {
      DroppedByRound(e, h, task, plugins, probes, j);
    }
  }

  lemma {:induction false} DroppedByRound(e: Edition, h: History, task: TaskInput, plugins: seq<Descriptor>,
                                          probes: seq<Probe>, j: nat)
    requires RegistryRun(e, h, task, plugins, probes)
    requires j < |Execute(e, h, task).log.rounds|
    requires EndsInSwitch(e, task, AssessmentIn(h).value, Execute(e, h, task).log.rounds[j])
    ensures DroppedForGood(plugins, Execute(e, h, task).log, j)
  {
    var ta, log := AssessmentIn(h).value, Execute(e, h, task).log;
    CommandsAreRounds(e, h, task);
    RoundsAreChained(e, h, task);
    forall c | c in log.commands && c.StartChild? ensures ChildOf(e, Requests(log.commands), log.answers, c) {
      ChildrenAreOfRounds(e, h, task, c);
    }
    DroppedIn(e, h, task, ta, plugins, probes, log, j);
  }

  lemma {:induction false} DroppedIn(e: Edition, h: History, task: TaskInput, ta: TaskAssessment,
                                     plugins: seq<Descriptor>, probes: seq<Probe>, log: Log, j: nat)
    requires InRounds(e, h, task, ta, log) && Chained(e, task, ta, log.rounds)
    requires AnsweredBy(plugins, probes, task, ta, log)
    requires forall c :: c in log.commands && c.StartChild? ==> ChildOf(e, Requests(log.commands), log.answers, c)
    requires j < |log.rounds| && EndsInSwitch(e, task, ta, log.rounds[j])
    ensures DroppedForGood(plugins, log, j)
  {
    var requests, answers, rounds := Requests(log.commands), log.answers, log.rounds;
    forall k | j < k < |requests|
      ensures BestOf(rounds[j]).provider in requests[k].excluded && Shrinks(plugins, rounds[j].request, requests[k])
    {
      DroppedLater(e, task, ta, plugins, probes[j], rounds, requests, answers, j, k);
    }
    forall c | c in log.commands && c.StartChild? && c.round > j + 1 ensures c.provider != BestOf(rounds[j]).provider {
      ChildIsRouted(e, task, ta, plugins, probes, requests, answers, c);
    }
  }

  /** A child's provider is registered and was not excluded, and its index is within bounds. */
  lemma {:induction false} ChildIsRouted(e: Edition, task: TaskInput, ta: TaskAssessment, plugins: seq<Descriptor>,
                                         probes: seq<Probe>, requests: seq<Request>, answers: seq<seq<string>>,
                                         c: Command)
    requires |probes| == |answers| <= |requests| && ChildOf(e, requests, answers, c)
    requires answers[c.round - 1] == RouteActivity(plugins, probes[c.round - 1], task, ta, requests[c.round - 1])
    ensures c.provider in ProviderSet(plugins) && c.provider !in requests[c.round - 1].excluded
    ensures c.index < Fanout(task, ta)
  {
    var k := c.round - 1;
    RouteHonoursExclusions(plugins, probes[k], task, ta, requests[k]);
    assert c.provider in Distinct(e, answers[k]);
  }

  function Names(s: seq<string>): set<string> {
    set p | p in s
  }

  lemma {:induction false} NoRepeatsSize(s: seq<string>)
    requires NoRepeats(s)
    ensures |Names(s)| == |s|
  {
    if s != [] {
      var front := s[..|s| - 1];
      NoRepeatsSize(front);
      assert Names(s) == Names(front) + {Last(s)};
      assert Last(s) !in front;
    }
  }

  lemma {:induction false} SubsetSize<T>(a: set<T>, b: set<T>)
    requires a <= b
    ensures |a| <= |b|
  {
    assert b == a + (b - a);
  }

  /** A registry of n providers admits at most n switch rounds, whatever the attempt limit. */
  lemma {:induction false} SwitchesAreBounded(e: Edition, h: History, task: TaskInput, plugins: seq<Descriptor>,
                                              probes: seq<Probe>)
    requires RegistryRun(e, h, task, plugins, probes)
    ensures Switches(e, task, AssessmentIn(h).value, Execute(e, h, task).log.rounds) <= |ProviderSet(plugins)|
  {
    var ta, log := AssessmentIn(h).value, Execute(e, h, task).log;
    var rounds := log.rounds;
    RoundsAreChained(e, h, task);
    CommandsAreRounds(e, h, task);
    ReportedRoutes(e, h, plugins, probes, task, ta, log);
    SwitchesExclude(e, task, ta, plugins, probes[..|rounds|], rounds);
    var excluded := ExcludedAfter(e, task, ta, rounds);
    NoRepeatsSize(excluded);
    SubsetSize(Names(excluded), ProviderSet(plugins));
  }

  lemma {:induction false} FlattenBound(rounds: seq<RoundLog>, bound: nat)
    requires forall k :: 0 <= k < |rounds| ==> |rounds[k].results| <= bound
    ensures |Flatten(rounds)| <= |rounds| * bound
  {
    if rounds != [] {
      FlattenBound(rounds[..|rounds| - 1], bound);
      assert |rounds| * bound == (|rounds| - 1) * bound + bound;
    }
  }

  lemma {:induction false} ProductGrows(a: nat, b: nat, c: nat)
    requires a <= b
    ensures a * c <= b * c
  {}

  function WriterBound(task: TaskInput): nat {
    if FILESYSTEM in task.capabilities || GIT in task.capabilities || task.parallelism == 0 then 1
    else task.parallelism
  }

  lemma {:induction false} RoundsAreBounded(task: TaskInput, ta: TaskAssessment, plugins: seq<Descriptor>,
                                            probes: seq<Probe>, rounds: seq<RoundLog>)
    requires RoutedBy(plugins, probes, task, ta, rounds)
    requires forall k :: 0 <= k < |rounds| ==> RoundOk(rounds[k])
    ensures forall k :: 0 <= k < |rounds| ==> |rounds[k].results| == |rounds[k].providers| <= WriterBound(task)
  {
    forall k | 0 <= k < |rounds| ensures |rounds[k].results| == |rounds[k].providers| <= WriterBound(task) {
      RoundStaysInside(plugins, probes[k], task, ta, rounds[k]);
    }
  }

  /** Work that may write the checkout starts one child per round, other work at most the
      requested parallelism, whether or not the round ever reports; and a run starts at most
      that many children per allowed round. */
  ghost predicate Serialized(task: TaskInput, log: Log) {
    && (forall c :: c in log.commands && c.StartChild? ==> c.index < WriterBound(task))
    && Starts(log.commands) <= task.maxAttempts * WriterBound(task)
  }

  /** The children started. */
  function Starts(commands: seq<Command>): nat {
    if commands == [] then 0
    else Starts(commands[..|commands| - 1]) + if Last(commands).StartChild? then 1 else 0
  }

  lemma {:induction false} StartsJoin(a: seq<Command>, b: seq<Command>)
    ensures Starts(a + b) == Starts(a) + Starts(b)
  {
    if b == [] {
      assert a + b == a;
    } else {
      assert (a + b)[..|a + b| - 1] == a + b[..|b| - 1];
      StartsJoin(a, b[..|b| - 1]);
    }
  }

  lemma {:induction false} AllStart(commands: seq<Command>)
    requires forall i :: 0 <= i < |commands| ==> commands[i].StartChild?
    ensures Starts(commands) == |commands|
  {
    if commands != [] {
      AllStart(commands[..|commands| - 1]);
    }
  }

  lemma {:induction false} NoneStart(commands: seq<Command>)
    requires forall i :: 0 <= i < |commands| ==> !commands[i].StartChild?
    ensures Starts(commands) == 0
  {
    if commands != [] {
      NoneStart(commands[..|commands| - 1]);
    }
  }

  lemma {:induction false} RoundStarts(e: Edition, k: nat, r: Request, routes: seq<string>)
    ensures Starts(RoundCommands(e, k, r, routes)) == |Distinct(e, routes)|
  {
    var starts := StartCommands(k, Distinct(e, routes), r.effort);
    StartsJoin([Route(r)], starts);
    NoneStart([Route(r)]);
    AllStart(starts);
  }

  lemma {:induction false} CommandsStart(e: Edition, requests: seq<Request>, answers: seq<seq<string>>, bound: nat)
    requires |answers| <= |requests| <= |answers| + 1
    requires forall k :: 0 <= k < |answers| ==> |answers[k]| <= bound
    ensures Starts(CommandsOf(e, requests, answers)) <= |requests| * bound
    decreases |requests|
  {
    if requests != [] {
      var n := |requests| - 1;
      var front, answered := requests[..n], answers[..n];
      CommandsStart(e, front, answered, bound);
      OneMoreBound(n, bound);
      assert requests == front + [requests[n]];
      if |answers| == n {
        assert answered == answers;
        AskedStarts(e, front, answers, requests[n]);
      } else {
        assert answers == answered + [answers[n]];
        AnsweredStarts(e, front, answered, requests[n], answers[n]);
      }
    }
  }

  lemma {:induction false} OneMoreBound(n: nat, bound: nat)
    ensures (n + 1) * bound == n * bound + bound
  {}

  lemma {:induction false} AskedStarts(e: Edition, requests: seq<Request>, answers: seq<seq<string>>, r: Request)
    requires |answers| == |requests|
    ensures Starts(CommandsOf(e, requests + [r], answers)) == Starts(CommandsOf(e, requests, answers))
  {
    CommandsAsked(e, requests, answers, r);
    StartsJoin(CommandsOf(e, requests, answers), [Route(r)]);
    NoneStart([Route(r)]);
  }

  lemma {:induction false} AnsweredStarts(e: Edition, requests: seq<Request>, answers: seq<seq<string>>, r: Request,
                                          routes: seq<string>)
    requires |answers| == |requests|
    ensures Starts(CommandsOf(e, requests + [r], answers + [routes]))
         == Starts(CommandsOf(e, requests, answers)) + |Distinct(e, routes)|
  {
    CommandsAnswered(e, requests, answers, r, routes);
    StartsJoin(CommandsOf(e, requests, answers), RoundCommands(e, |requests| + 1, r, routes));
    RoundStarts(e, |requests| + 1, r, routes);
  }

  lemma {:induction false} FittingStarts(e: Edition, h: History, task: TaskInput, ta: TaskAssessment, log: Log,
                                         requests: seq<Request>, waits: bool, bound: nat)
    requires Fits(Opening(h), e, h, task, ta, log, requests, waits) && |requests| <= task.maxAttempts
    requires forall k :: 0 <= k < |log.answers| ==> |log.answers[k]| <= bound
    ensures Starts(log.commands) <= task.maxAttempts * bound
  {
    var work, tail := CommandsOf(e, requests, log.answers), if waits then [BeginWait] else [];
    CommandsStart(e, requests, log.answers, bound);
    StartsJoin(Opening(h), work);
    StartsJoin(Opening(h) + work, tail);
    NoneStart(Opening(h));
    NoneStart(tail);
    ProductGrows(|requests|, task.maxAttempts, bound);
  }

  lemma {:induction false} AnswersAreBounded(plugins: seq<Descriptor>, probes: seq<Probe>, task: TaskInput,
                                             ta: TaskAssessment, log: Log)
    requires AnsweredBy(plugins, probes, task, ta, log)
    ensures forall k :: 0 <= k < |log.answers| ==> |log.answers[k]| <= WriterBound(task)
  {
    var requests := Requests(log.commands);
    forall k | 0 <= k < |log.answers| ensures |log.answers[k]| <= WriterBound(task) {
      RouteHonoursExclusions(plugins, probes[k], task, ta, requests[k]);
    }
  }

  /** Every run is serialized so, and a finished one reports at most that many attempts. */
  lemma {:induction false} WritersAreSerialized(e: Edition, h: History, task: TaskInput, plugins: seq<Descriptor>,
                                                probes: seq<Probe>)
    requires RegistryRun(e, h, task, plugins, probes)
    ensures Serialized(task, Execute(e, h, task).log)
    ensures var run := Execute(e, h, task);
            run.outcome.Finished? ==> |run.outcome.result.attempts| <= task.maxAttempts * WriterBound(task)
  {
    StartsAreSerialized(e, h, task, plugins, probes);
    AttemptsAreFew(e, h, task, plugins, probes);
  }

  lemma {:induction false} StartsAreSerialized(e: Edition, h: History, task: TaskInput, plugins: seq<Descriptor>,
                                               probes: seq<Probe>)
    requires RegistryRun(e, h, task, plugins, probes)
    ensures Serialized(task, Execute(e, h, task).log)
  {
    var ta, log := AssessmentIn(h).value, Execute(e, h, task).log;
    var requests := Requests(log.commands);
    CommandsAreRounds(e, h, task);
    AnswersAreBounded(plugins, probes, task, ta, log);
    FittingStarts(e, h, task, ta, log, requests, !Fits(Opening(h), e, h, task, ta, log, requests, false),
                  WriterBound(task));
    forall c | c in log.commands && c.StartChild? ensures c.index < WriterBound(task) {
      ChildrenAreOfRounds(e, h, task, c);
      assert |log.answers[c.round - 1]| <= WriterBound(task);
    }
  }

  lemma {:induction false} AttemptsAreFew(e: Edition, h: History, task: TaskInput, plugins: seq<Descriptor>,
                                          probes: seq<Probe>)
    requires RegistryRun(e, h, task, plugins, probes)
    ensures var run := Execute(e, h, task);
            run.outcome.Finished? ==> |run.outcome.result.attempts| <= task.maxAttempts * WriterBound(task)
  {
    var ta, log := AssessmentIn(h).value, Execute(e, h, task).log;
    RoundsAreChained(e, h, task);
    CommandsAreRounds(e, h, task);
    ReportedRoutes(e, h, plugins, probes, task, ta, log);
    AttemptsAreBounded(e, task, ta, plugins, probes[..|log.rounds|], log.rounds);
    CompletionAuthority(e, h, task);
  }

  lemma {:induction false} AttemptsAreBounded(e: Edition, task: TaskInput, ta: TaskAssessment, plugins: seq<Descriptor>,
                                              probes: seq<Probe>, rounds: seq<RoundLog>)
    requires Chained(e, task, ta, rounds) && RoutedBy(plugins, probes, task, ta, rounds)
    ensures forall k :: 0 <= k < |rounds| ==> |rounds[k].results| == |rounds[k].providers| <= WriterBound(task)
    ensures |Flatten(rounds)| <= task.maxAttempts * WriterBound(task)
  {
    RoundsAreBounded(task, ta, plugins, probes, rounds);
    FlattenBound(rounds, WriterBound(task));
    ProductGrows(|rounds|, task.maxAttempts, WriterBound(task));
  }

  // -------------------------------------------------- corrections and effort

  /** Some executor of the provider may be routed. */
  predicate Routable(plugins: seq<Descriptor>, available: Probe, task: TaskInput, r: Request, provider: string) {
    exists d :: d in plugins && d.provider == provider && Eligible(d, RequirementsOf(task, r), available)
  }

  /** The top of a ranking that has an eligible executor of the preferred provider. */
  lemma {:induction false} PreferredRanksFirst(plugins: seq<Descriptor>, req: Requirements, available: Probe,
                                               ranked: seq<Selection>, provider: string, d: Descriptor)
    requires DistinctIds(plugins) && ranked == Ranked(plugins, req, available) && req.preferred == [provider]
    requires d in plugins && d.provider == provider && Eligible(d, req, available)
    ensures ranked != [] && ranked[0].descriptor.provider == provider
  {
    RankingIsCanonical(plugins, plugins, req, available);
    FirstOutranks(ranked, SelectionOf(d, req));
    assert ranked[0] in ranked;
    OnlyPreferredScores(provider, ranked[0].descriptor, req);
    OnlyPreferredScores(provider, d, req);
  }

  lemma {:induction false} OnlyPreferredScores(provider: string, d: Descriptor, req: Requirements)
    requires req.preferred == [provider]
    ensures ScoreOf(d, req) >= 100 <==> d.provider == provider
  {
    assert d.provider in [provider] <==> d.provider == provider;
  }

  /** A single preferred provider outranks every other one, whatever their capabilities. */
  lemma {:induction false} PreferredComesFirst(plugins: seq<Descriptor>, available: Probe, task: TaskInput,
                                               ta: TaskAssessment, r: Request, provider: string)
    requires DistinctIds(plugins) && r.preferred == [provider] && Fanout(task, ta) > 0
    requires Routable(plugins, available, task, r, provider)
    ensures var routes := RouteActivity(plugins, available, task, ta, r); routes != [] && routes[0] == provider
  {
    var req := RequirementsOf(task, r);
    var d :| d in plugins && d.provider == provider && Eligible(d, req, available);
    PreferredRanksFirst(plugins, req, available, Ranked(plugins, req, available), provider, d);
  }

  lemma {:induction false} FirstOutranks(ranked: seq<Selection>, x: Selection)
    requires StrictlySorted(ranked) && x in ranked
    ensures ranked != [] && ranked[0].score >= x.score
  {
    var i :| 0 <= i < |ranked| && ranked[i] == x;
    assert i > 0 ==> Before(ranked[0], ranked[i]);
  }

  /** A round whose intervention asks for the same provider again. */
  predicate AsksAgain(e: Edition, task: TaskInput, ta: TaskAssessment, r: RoundLog) {
    r.results != [] && VerdictOf(e, task, ta, r) in {CorrectSame, Stronger}
  }

  lemma {:induction false} RetryPrefers(e: Edition, task: TaskInput, ta: TaskAssessment, rounds: seq<RoundLog>, k: nat,
                                        r: Request)
    requires Requested(e, task, ta, rounds, k, r) && AsksAgain(e, task, ta, rounds[k - 1])
    ensures r.preferred == [BestOf(rounds[k - 1]).provider]
  {}

  lemma {:induction false} RoutedMeansFanout(task: TaskInput, ta: TaskAssessment, plugins: seq<Descriptor>,
                                             probe: Probe, r: RoundLog)
    requires RoundOk(r) && r.routes == RouteActivity(plugins, probe, task, ta, r.request)
    ensures Fanout(task, ta) > 0
  {
    RouteHonoursExclusions(plugins, probe, task, ta, r.request);
  }

  /** A correction, or a stronger model, goes back to the provider of the best attempt: once
      the next request is answered, its first child is that provider's, as long as one of its
      executors may still be routed. */
  ghost predicate GoesBack(e: Edition, plugins: seq<Descriptor>, probes: seq<Probe>, task: TaskInput,
                           ta: TaskAssessment, log: Log, k: nat)
    requires 0 < k <= |log.rounds| && k < |log.answers| == |probes|
    requires k < |Requests(log.commands)| && log.rounds[k - 1].results != []
  {
    var name, request := BestOf(log.rounds[k - 1]).provider, Requests(log.commands)[k];
    AsksAgain(e, task, ta, log.rounds[k - 1]) && name != "" && Routable(plugins, probes[k], task, request, name) ==>
      StartChild(k + 1, 0, name, request.effort) in log.commands
  }

  lemma {:induction false} RetryGoesBack(e: Edition, task: TaskInput, ta: TaskAssessment, plugins: seq<Descriptor>,
                                         probe: Probe, request: Request, routes: seq<string>, name: string)
    requires DistinctIds(plugins) && request.preferred == [name] && name != "" && Fanout(task, ta) > 0
    requires routes == RouteActivity(plugins, probe, task, ta, request)
    requires Routable(plugins, probe, task, request, name)
    ensures Distinct(e, routes) != [] && Distinct(e, routes)[0] == name
  {
    PreferredComesFirst(plugins, probe, task, ta, request, name);
    DistinctKeepsFirst(e, routes);
  }

  /** The provider that the k-th request prefers, if round k-1 asked for it again, is routed first. */
  lemma {:induction false} AskedAgain(e: Edition, task: TaskInput, ta: TaskAssessment, plugins: seq<Descriptor>,
                                      probe: Probe, rounds: seq<RoundLog>, k: nat, request: Request,
                                      routes: seq<string>)
    requires Requested(e, task, ta, rounds, k, request) && AsksAgain(e, task, ta, rounds[k - 1])
    requires DistinctIds(plugins) && Fanout(task, ta) > 0 && routes == RouteActivity(plugins, probe, task, ta, request)
    requires BestOf(rounds[k - 1]).provider != ""
    requires Routable(plugins, probe, task, request, BestOf(rounds[k - 1]).provider)
    ensures Distinct(e, routes) != [] && Distinct(e, routes)[0] == BestOf(rounds[k - 1]).provider
  {
    RetryPrefers(e, task, ta, rounds, k, request);
    RetryGoesBack(e, task, ta, plugins, probe, request, routes, BestOf(rounds[k - 1]).provider);
  }

  lemma {:induction false} RoundGoesBack(e: Edition, task: TaskInput, ta: TaskAssessment, plugins: seq<Descriptor>,
                                         probes: seq<Probe>, log: Log, k: nat)
    requires RequestsChained(e, task, ta, log.rounds, Requests(log.commands))
    requires Reported(e, log.rounds, Requests(log.commands), log.answers)
    requires 0 < k < |log.answers| && k <= |log.rounds| && RoundOk(log.rounds[k - 1]) && DistinctIds(plugins)
    requires AnsweredBy(plugins, probes, task, ta, log)
    requires forall c: Command ::
               c.StartChild? && ChildOf(e, Requests(log.commands), log.answers, c) ==> c in log.commands
    ensures log.rounds[k - 1].results != [] && GoesBack(e, plugins, probes, task, ta, log, k)
  {
    var requests, r := Requests(log.commands), log.rounds[k - 1];
    assert Requested(e, task, ta, log.rounds, k, requests[k]);
    var name := BestOf(r).provider;
    if AsksAgain(e, task, ta, r) && name != "" && Routable(plugins, probes[k], task, requests[k], name) {
      RoutedMeansFanout(task, ta, plugins, probes[k - 1], r);
      AskedAgain(e, task, ta, plugins, probes[k], log.rounds, k, requests[k], log.answers[k]);
      assert ChildOf(e, requests, log.answers, StartChild(k + 1, 0, name, requests[k].effort));
    }
  }

  /** Every answered round after a correction goes back so. */
  lemma {:induction false} CorrectionGoesBack(e: Edition, h: History, task: TaskInput, plugins: seq<Descriptor>,
                                              probes: seq<Probe>, k: nat)
    requires RegistryRun(e, h, task, plugins, probes) && DistinctIds(plugins)
    requires 0 < k < |Execute(e, h, task).log.answers|
    ensures var log := Execute(e, h, task).log;
            && k <= |log.rounds| && log.rounds[k - 1].results != []
            && GoesBack(e, plugins, probes, task, AssessmentIn(h).value, log, k)
  {
    var ta, log := AssessmentIn(h).value, Execute(e, h, task).log;
    CommandsAreRounds(e, h, task);
    RoundsAreChained(e, h, task);
    forall c: Command | c.StartChild? && ChildOf(e, Requests(log.commands), log.answers, c) ensures c in log.commands {
      ChildrenAreOfRounds(e, h, task, c);
    }
    RoundsAreReported(e, h, task, ta, log);
    assert RoundOk(log.rounds[k - 1]);
    RoundGoesBack(e, task, ta, plugins, probes, log, k);
  }

  // ------------------------------------------------------------------ capable children

  predicate Capable(plugins: seq<Descriptor>, available: Probe, task: TaskInput, r: Request, provider: string) {
    exists d :: d in plugins && d.provider == provider && CanWork(d, available, task, r)
  }

  /** Every child's provider has an executor that could be started for its round: it has all
      required capabilities, runs headless with structured output, was available when the
      round was routed, and is not of a provider the run had excluded by then. */
  ghost predicate CapableChildren(plugins: seq<Descriptor>, probes: seq<Probe>, task: TaskInput, log: Log) {
    forall c :: c in log.commands && c.StartChild? ==>
      && 1 <= c.round <= |probes| && c.round <= |Requests(log.commands)|
      && Capable(plugins, probes[c.round - 1], task, Requests(log.commands)[c.round - 1], c.provider)
  }

  lemma {:induction false} ChildIsCapable(e: Edition, task: TaskInput, ta: TaskAssessment, plugins: seq<Descriptor>,
                                          probes: seq<Probe>, requests: seq<Request>, answers: seq<seq<string>>,
                                          c: Command)
    requires |probes| == |answers| <= |requests| && ChildOf(e, requests, answers, c) && DistinctIds(plugins)
    requires answers[c.round - 1] == RouteActivity(plugins, probes[c.round - 1], task, ta, requests[c.round - 1])
    ensures Capable(plugins, probes[c.round - 1], task, requests[c.round - 1], c.provider)
  {
    var k := c.round - 1;
    assert c.provider in Distinct(e, answers[k]);
    RoutesCanWork(plugins, probes[k], task, ta, requests[k]);
    var d :| d in Workers(plugins, probes[k], task, requests[k]) && d.provider == c.provider;
    assert d in plugins && CanWork(d, probes[k], task, requests[k]);
  }

  lemma {:induction false} ChildrenAreCapable(e: Edition, h: History, task: TaskInput, plugins: seq<Descriptor>,
                                              probes: seq<Probe>)
    requires RegistryRun(e, h, task, plugins, probes) && DistinctIds(plugins)
    ensures CapableChildren(plugins, probes, task, Execute(e, h, task).log)
  {
    var ta, log := AssessmentIn(h).value, Execute(e, h, task).log;
    var requests := Requests(log.commands);
    forall c | c in log.commands && c.StartChild?
      ensures 1 <= c.round <= |probes| && c.round <= |requests|
      ensures Capable(plugins, probes[c.round - 1], task, requests[c.round - 1], c.provider)
    {
      ChildrenAreOfRounds(e, h, task, c);
      ChildIsCapable(e, task, ta, plugins, probes, requests, log.answers, c);
    }
  }

  // ------------------------------------------------------------------ child ids

  function BeforeColon(s: string): string {
    if s == [] || s[0] == ':' then [] else [s[0]] + BeforeColon(s[1..])
  }

  lemma {:induction false} BeforeColonOf(a: string, x: string)
    requires ':' !in a
    ensures BeforeColon(a + ":" + x) == a
  {
    var s := a + ":" + x;
    if a != [] {
      assert s[1..] == a[1..] + ":" + x;
      BeforeColonOf(a[1..], x);
    }
  }

  /** Text before the first separator is determined. */
  lemma {:induction false} SplitAtColon(a: string, x: string, b: string, y: string)
    requires a + ":" + x == b + ":" + y
    requires ':' !in a && ':' !in b
    ensures a == b && x == y
  {
    BeforeColonOf(a, x);
    BeforeColonOf(b, y);
    assert x == (a + ":" + x)[|a| + 1..] && y == (b + ":" + y)[|b| + 1..];
  }

  function ChildId(parent: string, round: nat, index: nat, provider: string): string {
    parent + ":exec:" + (Decimal(round) + ":" + (Decimal(index) + ":" + provider))
  }

  /** A child's id determines its round and its index, whatever the providers are called. */
  lemma {:induction false} ChildIdInjective(parent: string, r1: nat, i1: nat, p1: string, r2: nat, i2: nat, p2: string)
    requires ChildId(parent, r1, i1, p1) == ChildId(parent, r2, i2, p2)
    ensures r1 == r2 && i1 == i2 && p1 == p2
  {
    var x1, x2 := Decimal(i1) + ":" + p1, Decimal(i2) + ":" + p2;
    var head := parent + ":exec:";
    assert ChildId(parent, r1, i1, p1)[|head|..] == Decimal(r1) + ":" + x1;
    assert ChildId(parent, r2, i2, p2)[|head|..] == Decimal(r2) + ":" + x2;
    SplitAtColon(Decimal(r1), x1, Decimal(r2), x2);
    SplitAtColon(Decimal(i1), p1, Decimal(i2), p2);
    DecimalInjective(r1, r2);
    DecimalInjective(i1, i2);
  }

  /** How the ids read. */
  lemma {:induction false} ChildIdText(parent: string, round: nat, index: nat, provider: string)
    requires round < 10 && index < 10
    ensures ChildId(parent, round, index, provider)
         == parent + ":exec:" + ['0' + round as char] + ":" + ['0' + index as char] + ":" + provider
  {
    assert Decimal(round) == ['0' + round as char] && Decimal(index) == ['0' + index as char];
  }

  ghost predicate ChildIdsDistinct(parent: string, commands: seq<Command>) {
    forall i, j :: 0 <= i < j < |commands| && commands[i].StartChild? && commands[j].StartChild? ==>
      ChildId(parent, commands[i].round, commands[i].index, commands[i].provider)
      != ChildId(parent, commands[j].round, commands[j].index, commands[j].provider)
  }

  /** All child workflow ids of a run are distinct. */
  lemma {:induction false} ChildIdsAreDistinct(e: Edition, h: History, task: TaskInput, parent: string)
    ensures ChildIdsDistinct(parent, Execute(e, h, task).log.commands)
  {
    var commands := Execute(e, h, task).log.commands;
    RunTraced(false, e, h, task);
    forall i, j | 0 <= i < j < |commands| && commands[i].StartChild? && commands[j].StartChild?
      ensures ChildId(parent, commands[i].round, commands[i].index, commands[i].provider)
           != ChildId(parent, commands[j].round, commands[j].index, commands[j].provider)
    {
      var a, b := commands[i], commands[j];
      if ChildId(parent, a.round, a.index, a.provider) == ChildId(parent, b.round, b.index, b.provider) {
        ChildIdInjective(parent, a.round, a.index, a.provider, b.round, b.index, b.provider);
      }
    }
  }
}
