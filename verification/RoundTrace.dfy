/** The commands of a run are its rounds: each issues one routing request, the one its
    predecessor's intervention asked for, and then one child per provider of the answer.
    This covers a last round whose answer, or whose children, never came. */
module RoundTrace {
  import opened Common
  import opened Intelligence
  import opened TaskWorkflow
  import opened CommandTrace
  import opened WorkflowTheorems

  // ------------------------------------------------------------- vocabulary

  /** The routing requests among the commands, in order. */
  function Requests(commands: seq<Command>): seq<Request> {
    if commands == [] then []
    else Requests(commands[..|commands| - 1]) + match Last(commands) case Route(r) => [r] case _ => []
  }

  /** What the k-th round issues once its request is answered. */
  function RoundCommands(e: Edition, k: nat, request: Request, routes: seq<string>): seq<Command> {
    [Route(request)] + StartCommands(k, Distinct(e, routes), request.effort)
  }

  /** The commands of rounds with these requests, of which all, or all but the last, were
      answered. */
  function CommandsOf(e: Edition, requests: seq<Request>, answers: seq<seq<string>>): seq<Command>
    requires |answers| <= |requests| <= |answers| + 1
  {
    if requests == [] then []
    else
      var n := |requests| - 1;
      if |answers| == n then CommandsOf(e, requests[..n], answers) + [Route(requests[n])]
      else CommandsOf(e, requests[..n], answers[..n]) + RoundCommands(e, n + 1, requests[n], answers[n])
  }

  /** What the run asks for next. */
  function OpenRequest(e: Edition, task: TaskInput, ta: TaskAssessment, rounds: seq<RoundLog>): Request {
    if rounds == [] || Last(rounds).results == [] then FirstRequest(task) else NextRequest(e, task, ta, Last(rounds))
  }

  /** The rounds that reported are the first of those requested and answered. */
  ghost predicate Reported(e: Edition, rounds: seq<RoundLog>, requests: seq<Request>, answers: seq<seq<string>>) {
    && |rounds| <= |answers| <= |requests| <= |rounds| + 1
    && forall k :: 0 <= k < |rounds| ==>
         && rounds[k].request == requests[k] && rounds[k].routes == answers[k]
         && rounds[k].providers == Distinct(e, answers[k])
  }

  /** One request more than rounds reported is the one that the last of them asks for. */
  ghost predicate Asked(e: Edition, task: TaskInput, ta: TaskAssessment, rounds: seq<RoundLog>,
                        requests: seq<Request>)
  {
    |requests| > |rounds| ==>
      && |rounds| < task.maxAttempts
      && Last(requests) == OpenRequest(e, task, ta, rounds)
      && (rounds != [] ==> Last(rounds).results != [] && Continues(VerdictOf(e, task, ta, Last(rounds))))
  }

  ghost predicate FromHistory(h: History, answers: seq<seq<string>>) {
    forall k :: 0 <= k < |answers| ==> Routed(answers[k]) in Jobs(h)
  }

  function Jobs(h: History): seq<Job> {
    Map((a: Activation) => a.job, h)
  }

  // ------------------------------------------------------------- shape of the commands

  lemma {:induction false} RequestsJoin(a: seq<Command>, b: seq<Command>)
    ensures Requests(a + b) == Requests(a) + Requests(b)
  {
    if b == [] {
      assert a + b == a;
    } else {
      assert (a + b)[..|a + b| - 1] == a + b[..|b| - 1];
      RequestsJoin(a, b[..|b| - 1]);
    }
  }

  lemma {:induction false} NoneAsks(commands: seq<Command>)
    requires forall i :: 0 <= i < |commands| ==> !commands[i].Route?
    ensures Requests(commands) == []
  {
    if commands != [] {
      NoneAsks(commands[..|commands| - 1]);
    }
  }

  lemma {:induction false} OneAsks(r: Request)
    ensures Requests([Route(r)]) == [r]
  {
    NoneAsks([Route(r)][..0]);
  }

  lemma {:induction false} RoundAsks(e: Edition, k: nat, r: Request, routes: seq<string>)
    ensures Requests(RoundCommands(e, k, r, routes)) == [r]
  {
    var starts := StartCommands(k, Distinct(e, routes), r.effort);
    RequestsJoin([Route(r)], starts);
    OneAsks(r);
    NoneAsks(starts);
  }

  lemma {:induction false} CommandsAsked(e: Edition, requests: seq<Request>, answers: seq<seq<string>>, r: Request)
    requires |answers| == |requests|
    ensures CommandsOf(e, requests + [r], answers) == CommandsOf(e, requests, answers) + [Route(r)]
  {
    assert (requests + [r])[..|requests|] == requests;
  }

  lemma {:induction false} CommandsAnswered(e: Edition, requests: seq<Request>, answers: seq<seq<string>>, r: Request,
                                            routes: seq<string>)
    requires |answers| == |requests|
    ensures CommandsOf(e, requests + [r], answers + [routes])
         == CommandsOf(e, requests, answers) + RoundCommands(e, |requests| + 1, r, routes)
  {
    assert (requests + [r])[..|requests|] == requests && (answers + [routes])[..|answers|] == answers;
  }

  lemma {:induction false} OneMoreAsks(work: seq<Command>, round: seq<Command>, front: seq<Request>, r: Request,
                                       requests: seq<Request>)
    requires Requests(work) == front && Requests(round) == [r]
    requires requests != [] && front == requests[..|requests| - 1] && r == requests[|requests| - 1]
    ensures Requests(work + round) == requests
  {
    RequestsJoin(work, round);
    assert front + [r] == requests;
  }

  /** The requests are read off the commands. */
  lemma {:induction false} RequestsOfCommands(e: Edition, requests: seq<Request>, answers: seq<seq<string>>)
    requires |answers| <= |requests| <= |answers| + 1
    ensures Requests(CommandsOf(e, requests, answers)) == requests
    decreases |requests|
  {
    if requests != [] {
      var n := |requests| - 1;
      var front, r := requests[..n], requests[n];
      if |answers| == n {
        RequestsOfCommands(e, front, answers);
        OneAsks(r);
        OneMoreAsks(CommandsOf(e, front, answers), [Route(r)], front, r, requests);
      } else {
        RequestsOfCommands(e, front, answers[..n]);
        RoundAsks(e, n + 1, r, answers[n]);
        OneMoreAsks(CommandsOf(e, front, answers[..n]), RoundCommands(e, n + 1, r, answers[n]), front, r, requests);
      }
    }
  }

  lemma {:induction false} Joined(a: seq<Command>, b: seq<Command>, c: seq<Command>)
    ensures a + b + c == a + (b + c)
  {}

  // ------------------------------------------------------------- invariants

  /** Commands, reported rounds and answers fit requests; a final wait may follow. */
  ghost predicate Fits(start: seq<Command>, e: Edition, h: History, task: TaskInput, ta: TaskAssessment, log: Log,
                       requests: seq<Request>, waits: bool)
  {
    && Reported(e, log.rounds, requests, log.answers)
    && Asked(e, task, ta, log.rounds, requests)
    && FromHistory(h, log.answers)
    && log.commands == start + CommandsOf(e, requests, log.answers) + if waits then [BeginWait] else []
  }

  /** Between rounds nothing is open. */
  ghost predicate FitsLoop(start: seq<Command>, e: Edition, h: History, task: TaskInput, ta: TaskAssessment, s: Loop,
                           requests: seq<Request>)
  {
    && |requests| == |s.log.rounds| == |s.log.answers| == s.round
    && s.request == OpenRequest(e, task, ta, s.log.rounds)
    && Fits(start, e, h, task, ta, s.log, requests, false)
  }

  /** A run stops asking only when its last round was not retried or no round is left, and it
      waits after a round exactly when that round's verdict asks for a reviewer. */
  ghost predicate Settled(e: Edition, task: TaskInput, ta: TaskAssessment, rounds: seq<RoundLog>,
                          requests: seq<Request>, waits: bool)
  {
    && (waits ==> |requests| == |rounds| > 0)
    && (|requests| == |rounds| > 0 && Last(rounds).results != [] ==>
          var verdict := VerdictOf(e, task, ta, Last(rounds));
          && (waits <==> verdict.AskReviewer?)
          && (Continues(verdict) ==> |rounds| >= task.maxAttempts))
  }

  ghost predicate FitsStep(start: seq<Command>, e: Edition, h: History, task: TaskInput, ta: TaskAssessment, step: Step,
                           requests: seq<Request>, waits: bool)
  {
    match step
    case Done(run) =>
      Fits(start, e, h, task, ta, run.log, requests, waits) && Settled(e, task, ta, run.log.rounds, requests, waits)
    case Again(s) => FitsLoop(start, e, h, task, ta, s, requests)
  }

  lemma {:induction false} AnswerSnoc(h: History, answers: seq<seq<string>>, p: nat, routes: seq<string>)
    requires FromHistory(h, answers) && p < |h| && h[p].job == Routed(routes)
    ensures FromHistory(h, answers + [routes])
  {
    assert Jobs(h)[p] == Routed(routes);
  }

  /** The loop's request is the one that the last reported round asks for. */
  lemma {:induction false} AskedNext(start: seq<Command>, e: Edition, h: History, task: TaskInput, ta: TaskAssessment,
                                     s: Loop, requests: seq<Request>)
    requires LoopInv(e, h, task, ta, s) && FitsLoop(start, e, h, task, ta, s, requests) && s.round < task.maxAttempts
    ensures Asked(e, task, ta, s.log.rounds, requests + [s.request])
  {}

  lemma {:induction false} ReportedAsked(e: Edition, rounds: seq<RoundLog>, requests: seq<Request>,
                                         answers: seq<seq<string>>, r: Request)
    requires Reported(e, rounds, requests, answers) && |requests| == |rounds|
    ensures Reported(e, rounds, requests + [r], answers)
  {}

  lemma {:induction false} AskedCommands(start: seq<Command>, e: Edition, requests: seq<Request>,
                                         answers: seq<seq<string>>, r: Request, commands: seq<Command>)
    requires |requests| == |answers| && commands == start + CommandsOf(e, requests, answers) + []
    ensures commands + [Route(r)] == start + CommandsOf(e, requests + [r], answers) + []
  {
    CommandsAsked(e, requests, answers, r);
    Regrouped(start, CommandsOf(e, requests, answers), [Route(r)]);
  }

  /** The request is out. */
  lemma {:induction false} RequestFits(start: seq<Command>, e: Edition, h: History, task: TaskInput, ta: TaskAssessment,
                                       s: Loop, requests: seq<Request>, log: Log)
    requires FitsLoop(start, e, h, task, ta, s, requests)
    requires Asked(e, task, ta, s.log.rounds, requests + [s.request])
    requires log == Issue(s.log, [Route(s.request)])
    ensures Fits(start, e, h, task, ta, log, requests + [s.request], false)
  {
    ReportedAsked(e, s.log.rounds, requests, s.log.answers, s.request);
    AskedCommands(start, e, requests, s.log.answers, s.request, s.log.commands);
  }

  lemma {:induction false} Regrouped(a: seq<Command>, b: seq<Command>, c: seq<Command>)
    ensures a + b + [] + c == a + (b + c) + []
  {}

  /** What the answer and the start of its children leave in the log. */
  function Started(e: Edition, s: Loop, routes: seq<string>): Log {
    var answered := Answered(Issue(s.log, [Route(s.request)]), routes);
    Issue(answered, StartCommands(s.round + 1, Distinct(e, routes), s.request.effort))
  }

  lemma {:induction false} StartedCommands(start: seq<Command>, e: Edition, s: Loop, requests: seq<Request>,
                                           routes: seq<string>)
    requires |requests| == |s.log.answers| == s.round
    requires s.log.commands == start + CommandsOf(e, requests, s.log.answers) + []
    ensures Started(e, s, routes).commands
         == start + CommandsOf(e, requests + [s.request], s.log.answers + [routes]) + []
  {
    var work := CommandsOf(e, requests, s.log.answers);
    var starts := StartCommands(s.round + 1, Distinct(e, routes), s.request.effort);
    CommandsAnswered(e, requests, s.log.answers, s.request, routes);
    Regrouped(start, work, [Route(s.request)] + starts);
    Joined(start + work + [], [Route(s.request)], starts);
  }

  /** The answer is in, and its children are started; an empty answer starts none. */
  lemma {:induction false} AnswerFits(start: seq<Command>, e: Edition, h: History, task: TaskInput, ta: TaskAssessment,
                                      s: Loop, requests: seq<Request>, routes: seq<string>, p: nat)
    requires FitsLoop(start, e, h, task, ta, s, requests)
    requires Asked(e, task, ta, s.log.rounds, requests + [s.request])
    requires p < |h| && h[p].job == Routed(routes)
    ensures Fits(start, e, h, task, ta, Started(e, s, routes), requests + [s.request], false)
  {
    AnswerSnoc(h, s.log.answers, p, routes);
    StartedCommands(start, e, s, requests, routes);
  }

  /** The children have reported: their round joins the reported ones. */
  lemma {:induction false} ReportFits(start: seq<Command>, e: Edition, h: History, task: TaskInput, ta: TaskAssessment,
                                      s: Loop, requests: seq<Request>, routes: seq<string>,
                                      results: seq<AttemptResult>, next: nat)
    requires FitsLoop(start, e, h, task, ta, s, requests)
    requires Fits(start, e, h, task, ta, Started(e, s, routes), requests + [s.request], false)
    ensures var s' := AfterChildren(s, Started(e, s, routes), routes, Distinct(e, routes), results, next);
            && Fits(start, e, h, task, ta, s'.log, requests + [s.request], false)
            && |requests| + 1 == |s'.log.rounds| == |s'.log.answers| == s'.round
  {}

  /** A verdict ends the run, with a wait if it asks, or asks for the next round. */
  lemma {:induction false} ConcludeFits(start: seq<Command>, e: Edition, h: History, task: TaskInput,
                                        ta: TaskAssessment, s: Loop, requests: seq<Request>)
    returns (waits: bool)
    requires s.pos <= |h| && s.log.rounds != [] && Last(s.log.rounds).results != []
    requires s.request == Last(s.log.rounds).request
    requires Fits(start, e, h, task, ta, s.log, requests, false)
    requires |requests| == |s.log.rounds| == |s.log.answers| == s.round
    ensures var best := BestOf(Last(s.log.rounds));
            FitsStep(start, e, h, task, ta, Conclude(h, ta, s, best, Decide(e, ta, best, task.waitForReview)), requests,
                     waits)
  {
    waits := VerdictOf(e, task, ta, Last(s.log.rounds)).AskReviewer?;
    var work := start + CommandsOf(e, requests, s.log.answers);
    assert work + [] + [BeginWait] == work + [BeginWait];
  }

  lemma {:induction false} ProvidersFit(start: seq<Command>, e: Edition, h: History, task: TaskInput,
                                        ta: TaskAssessment, s: Loop, requests: seq<Request>, routes: seq<string>,
                                        p: nat, log: Log)
    returns (waits: bool)
    requires FitsLoop(start, e, h, task, ta, s, requests) && s.pos < p <= |h| && Distinct(e, routes) != []
    requires Fits(start, e, h, task, ta, Started(e, s, routes), requests + [s.request], false)
    requires log == Answered(Issue(s.log, [Route(s.request)]), routes)
    ensures FitsStep(start, e, h, task, ta, RunProviders(e, h, task, ta, s, log, routes, p), requests + [s.request],
                     waits)
  {
    var providers := Distinct(e, routes);
    waits := false;
    match AwaitChildren(h, p, providers, EmptySlots(|providers|))
    case Got(results, q) =>
      var s' := AfterChildren(s, Started(e, s, routes), routes, providers, results, q);
      ReportFits(start, e, h, task, ta, s, requests, routes, results, q);
      waits := ConcludeFits(start, e, h, task, ta, s', requests + [s.request]);
    case _ =>
  }

  lemma {:induction false} EmptyAnswerStarts(e: Edition, s: Loop, routes: seq<string>, log: Log)
    requires Distinct(e, routes) == [] && log == Answered(Issue(s.log, [Route(s.request)]), routes)
    ensures Started(e, s, routes) == log
  {
    assert log.commands + [] == log.commands;
  }

  lemma {:induction false} UnansweredFits(start: seq<Command>, e: Edition, h: History, task: TaskInput,
                                          ta: TaskAssessment, s: Loop, requests: seq<Request>, log: Log,
                                          r: Awaited<seq<string>>)
    requires FitsLoop(start, e, h, task, ta, s, requests) && log.rounds == s.log.rounds && !r.Got?
    requires Fits(start, e, h, task, ta, log, requests + [s.request], false)
    ensures FitsStep(start, e, h, task, ta, Answer(e, h, task, ta, s, log, r), requests + [s.request], false)
  {}

  lemma {:induction false} NobodyFits(start: seq<Command>, e: Edition, h: History, task: TaskInput,
                                      ta: TaskAssessment, s: Loop, requests: seq<Request>, log: Log,
                                      r: Awaited<seq<string>>)
    requires |requests| == |s.log.rounds| == |log.rounds|
    requires r.Got? && s.pos <= r.next <= |h| && Distinct(e, r.value) == []
    requires Fits(start, e, h, task, ta, Answered(log, r.value), requests + [s.request], false)
    ensures FitsStep(start, e, h, task, ta, Answer(e, h, task, ta, s, log, r), requests + [s.request], false)
  {}

  lemma {:induction false} RoutedFits(start: seq<Command>, e: Edition, h: History, task: TaskInput,
                                      ta: TaskAssessment, s: Loop, requests: seq<Request>, log: Log,
                                      r: Awaited<seq<string>>)
    returns (waits: bool)
    requires FitsLoop(start, e, h, task, ta, s, requests) && log == Issue(s.log, [Route(s.request)])
    requires r.Got? && s.pos < r.next <= |h| && Distinct(e, r.value) != []
    requires Fits(start, e, h, task, ta, Started(e, s, r.value), requests + [s.request], false)
    ensures FitsStep(start, e, h, task, ta, Answer(e, h, task, ta, s, log, r), requests + [s.request], waits)
  {
    waits := ProvidersFit(start, e, h, task, ta, s, requests, r.value, r.next, Answered(log, r.value));
  }

  lemma {:induction false} AnsweredFits(start: seq<Command>, e: Edition, h: History, task: TaskInput,
                                        ta: TaskAssessment, s: Loop, requests: seq<Request>, log: Log,
                                        r: Awaited<seq<string>>)
    returns (waits: bool)
    requires FitsLoop(start, e, h, task, ta, s, requests) && log == Issue(s.log, [Route(s.request)])
    requires Asked(e, task, ta, s.log.rounds, requests + [s.request])
    requires r.Got? && s.pos < r.next <= |h| && h[r.next - 1].job == Routed(r.value)
    ensures FitsStep(start, e, h, task, ta, Answer(e, h, task, ta, s, log, r), requests + [s.request], waits)
  {
    AnswerFits(start, e, h, task, ta, s, requests, r.value, r.next - 1);
    if Distinct(e, r.value) == [] {
      EmptyAnswerStarts(e, s, r.value, Answered(log, r.value));
      NobodyFits(start, e, h, task, ta, s, requests, log, r);
      waits := false;
    } else {
      waits := RoutedFits(start, e, h, task, ta, s, requests, log, r);
    }
  }

  lemma {:induction false} RoundFits(start: seq<Command>, e: Edition, h: History, task: TaskInput, ta: TaskAssessment,
                                     s: Loop, requests: seq<Request>)
    returns (waits: bool)
    requires s.pos <= |h| && FitsLoop(start, e, h, task, ta, s, requests)
    requires Asked(e, task, ta, s.log.rounds, requests + [s.request])
    ensures FitsStep(start, e, h, task, ta, OneRound(e, h, task, ta, s), requests + [s.request], waits)
  {
    var log, r := Issue(s.log, [Route(s.request)]), AwaitRoutes(h, s.pos);
    RoundIsAnswer(e, h, task, ta, s);
    if r.Got? {
      waits := AnsweredFits(start, e, h, task, ta, s, requests, log, r);
    } else {
      waits := false;
      RequestFits(start, e, h, task, ta, s, requests, log);
      UnansweredFits(start, e, h, task, ta, s, requests, log, r);
    }
  }

  lemma {:induction false} RoundsFit(start: seq<Command>, e: Edition, h: History, task: TaskInput, ta: TaskAssessment,
                                     s: Loop, requests: seq<Request>)
    returns (all: seq<Request>, waits: bool)
    requires LoopInv(e, h, task, ta, s) && FitsLoop(start, e, h, task, ta, s, requests) && s.round <= task.maxAttempts
    ensures var log := Rounds(e, h, task, ta, s).log;
            Fits(start, e, h, task, ta, log, all, waits) && Settled(e, task, ta, log.rounds, all, waits)
    ensures all == [] ==> task.maxAttempts == 0
    decreases task.maxAttempts - s.round
  {
    all, waits := requests, false;
    if s.round < task.maxAttempts {
      AskedNext(start, e, h, task, ta, s, requests);
      waits := RoundFits(start, e, h, task, ta, s, requests);
      RoundKeeps(e, h, task, ta, s);
      all := requests + [s.request];
      match OneRound(e, h, task, ta, s)
      case Again(s') => all, waits := RoundsFit(start, e, h, task, ta, s', all);
      case Done(_) =>
    }
  }

  // ------------------------------------------------------------- whole runs

  lemma {:induction false} GateFits(start: seq<Command>, e: Edition, h: History, task: TaskInput, ta: TaskAssessment,
                                    log: Log)
    requires log.commands == start && log.rounds == [] && log.answers == []
    ensures Fits(start, e, h, task, ta, log, [], false) && Settled(e, task, ta, log.rounds, [], false)
  {
    assert start + CommandsOf(e, [], []) + [] == start;
  }

  lemma {:induction false} GatedFit(e: Edition, h: History, task: TaskInput, ta: TaskAssessment, p: nat)
    returns (requests: seq<Request>, waits: bool)
    requires p <= |h| && ta.humanGateRequired
    ensures var log := AfterAssessment(e, h, task, ta, p).log;
            && Fits([Assess, BeginWait], e, h, task, ta, log, requests, waits)
            && Settled(e, task, ta, log.rounds, requests, waits)
    ensures requests == [] ==> task.maxAttempts == 0 || !GatePassed(GateWait(h, p))
  {
    var gate := GateWait(h, p);
    if GatePassed(gate) {
      var s := LoopBehind(task, gate);
      GatePasses(e, h, task, ta, p);
      GateWaitFresh(h, p);
      FirstLoopInv(e, h, task, ta, gate[0].release + 1, GateLog(gate));
      GateFits([Assess, BeginWait], e, h, task, ta, s.log);
      requests, waits := RoundsFit([Assess, BeginWait], e, h, task, ta, s, []);
    } else {
      GateStops(e, h, task, ta, p);
      GateFits([Assess, BeginWait], e, h, task, ta, GateLog(gate));
      requests, waits := [], false;
    }
  }

  /** The consequence gate was not passed. */
  predicate GateHolds(h: History)
    requires AssessmentIn(h).Got?
  {
    AssessmentIn(h).value.humanGateRequired && !GatePassed(GateWait(h, AssessmentIn(h).next))
  }

  lemma {:induction false} RunFits(e: Edition, h: History, task: TaskInput)
    returns (requests: seq<Request>, waits: bool)
    requires AssessmentIn(h).Got?
    ensures var log := Execute(e, h, task).log;
            && Fits(Opening(h), e, h, task, AssessmentIn(h).value, log, requests, waits)
            && Settled(e, task, AssessmentIn(h).value, log.rounds, requests, waits)
    ensures requests == [] ==> task.maxAttempts == 0 || GateHolds(h)
  {
    var ta, p := AssessmentIn(h).value, AssessmentIn(h).next;
    if ta.humanGateRequired {
      requests, waits := GatedFit(e, h, task, ta, p);
    } else {
      FirstLoopInv(e, h, task, ta, p, STARTED);
      GateFits([Assess], e, h, task, ta, STARTED);
      requests, waits := RoundsFit([Assess], e, h, task, ta, FirstLoop(task, p, STARTED), []);
    }
  }

  /** The k-th request is what the round before it, which reported, asked for. */
  predicate Requested(e: Edition, task: TaskInput, ta: TaskAssessment, rounds: seq<RoundLog>, k: nat, r: Request) {
    && 0 < k <= |rounds| && rounds[k - 1].results != []
    && Continues(VerdictOf(e, task, ta, rounds[k - 1]))
    && r == NextRequest(e, task, ta, rounds[k - 1])
  }

  /** Every request is the first one or asked for by the round before it. */
  ghost predicate RequestsChained(e: Edition, task: TaskInput, ta: TaskAssessment, rounds: seq<RoundLog>,
                                  requests: seq<Request>)
  {
    && |requests| <= task.maxAttempts
    && (requests != [] ==> requests[0] == FirstRequest(task))
    && forall k {:trigger Requested(e, task, ta, rounds, k, requests[k])} ::
         0 < k < |requests| ==> Requested(e, task, ta, rounds, k, requests[k])
  }

  lemma {:induction false} NextRequested(e: Edition, task: TaskInput, ta: TaskAssessment, rounds: seq<RoundLog>,
                                         requests: seq<Request>, answers: seq<seq<string>>, j: nat)
    requires Chained(e, task, ta, rounds) && Reported(e, rounds, requests, answers)
    requires Asked(e, task, ta, rounds, requests) && j + 1 < |requests|
    ensures Requested(e, task, ta, rounds, j + 1, requests[j + 1])
  {
    var k := j + 1;
    if k < |rounds| {
      assert Follows(e, task, ta, rounds[j], rounds[k]);
    } else {
      assert Last(rounds) == rounds[j] && Last(requests) == requests[k];
    }
  }

  lemma {:induction false} ChainRequests(e: Edition, task: TaskInput, ta: TaskAssessment, rounds: seq<RoundLog>,
                                         requests: seq<Request>, answers: seq<seq<string>>)
    requires Chained(e, task, ta, rounds) && Reported(e, rounds, requests, answers)
    requires Asked(e, task, ta, rounds, requests)
    ensures RequestsChained(e, task, ta, rounds, requests)
  {
    forall k | 0 < k < |requests| ensures Requested(e, task, ta, rounds, k, requests[k]) {
      NextRequested(e, task, ta, rounds, requests, answers, k - 1);
    }
    if requests != [] && rounds == [] {
      assert Last(requests) == requests[0];
    }
  }

  /** The requests of a fitting log are those among its commands. */
  lemma {:induction false} FittingRequests(e: Edition, h: History, task: TaskInput, ta: TaskAssessment, log: Log,
                                           requests: seq<Request>, waits: bool)
    requires Fits(Opening(h), e, h, task, ta, log, requests, waits)
    ensures Requests(log.commands) == requests
  {
    RequestsBetween(Opening(h), e, requests, log.answers, if waits then [BeginWait] else []);
  }

  lemma {:induction false} RequestsBetween(start: seq<Command>, e: Edition, requests: seq<Request>,
                                           answers: seq<seq<string>>, end: seq<Command>)
    requires |answers| <= |requests| <= |answers| + 1
    requires forall i :: 0 <= i < |start| ==> !start[i].Route?
    requires forall i :: 0 <= i < |end| ==> !end[i].Route?
    ensures Requests(start + CommandsOf(e, requests, answers) + end) == requests
  {
    var work := CommandsOf(e, requests, answers);
    RequestsOfCommands(e, requests, answers);
    NoneAsks(start);
    NoneAsks(end);
    RequestsJoin(start, work);
    RequestsJoin(start + work, end);
  }

  /** All commands are accounted for by the requests among them and the answers received. */
  ghost predicate InRounds(e: Edition, h: History, task: TaskInput, ta: TaskAssessment, log: Log) {
    var requests := Requests(log.commands);
    && RequestsChained(e, task, ta, log.rounds, requests)
    && ((Fits(Opening(h), e, h, task, ta, log, requests, false) && Settled(e, task, ta, log.rounds, requests, false))
        || (Fits(Opening(h), e, h, task, ta, log, requests, true) && Settled(e, task, ta, log.rounds, requests, true)))
  }

  lemma {:induction false} RoundsAreReported(e: Edition, h: History, task: TaskInput, ta: TaskAssessment, log: Log)
    requires InRounds(e, h, task, ta, log)
    ensures Reported(e, log.rounds, Requests(log.commands), log.answers)
    ensures RequestsChained(e, task, ta, log.rounds, Requests(log.commands))
  {}

  /** After the opening, the commands of a run are those of its rounds, in order, and possibly
      a last review wait: one routing request a round, chained by the interventions, then one
      child for each provider of the answer.  The rounds that reported are the first of these,
      and at most one more was begun. */
  lemma {:induction false} CommandsAreRounds(e: Edition, h: History, task: TaskInput)
    requires AssessmentIn(h).Got?
    ensures InRounds(e, h, task, AssessmentIn(h).value, Execute(e, h, task).log)
    ensures Requests(Execute(e, h, task).log.commands) == [] ==> task.maxAttempts == 0 || GateHolds(h)
  {
    var ta, log := AssessmentIn(h).value, Execute(e, h, task).log;
    var requests, waits := RunFits(e, h, task);
    FittingRequests(e, h, task, ta, log, requests, waits);
    RoundsAreChained(e, h, task);
    ChainRequests(e, task, ta, log.rounds, requests, log.answers);
  }

  // ------------------------------------------------------------- children

  /** A child of the round with this number: its provider is the answer's at its index, and
      its effort is the request's. */
  predicate ChildOf(e: Edition, requests: seq<Request>, answers: seq<seq<string>>, c: Command)
    requires |answers| <= |requests|
  {
    && c.StartChild? && 1 <= c.round <= |answers|
    && var providers := Distinct(e, answers[c.round - 1]);
       c.index < |providers| && c.provider == providers[c.index] && c.effort == requests[c.round - 1].effort
  }

  lemma {:induction false} ChildrenOfCommands(e: Edition, requests: seq<Request>, answers: seq<seq<string>>, c: Command)
    requires |answers| <= |requests| <= |answers| + 1 && c.StartChild?
    ensures c in CommandsOf(e, requests, answers) <==> ChildOf(e, requests, answers, c)
    decreases |requests|
  {
    if requests != [] {
      var n := |requests| - 1;
      ChildrenOfCommands(e, requests[..n], answers[..n], c);
      if |answers| == n {
        assert answers[..n] == answers;
      } else {
        ChildrenOfRound(e, n + 1, requests[n], answers[n], c);
      }
    }
  }

  lemma {:induction false} ChildrenOfRound(e: Edition, k: nat, request: Request, routes: seq<string>, c: Command)
    requires c.StartChild?
    ensures c in RoundCommands(e, k, request, routes) <==>
              && c.round == k && c.index < |Distinct(e, routes)|
              && c.provider == Distinct(e, routes)[c.index] && c.effort == request.effort
  {
    var starts := StartCommands(k, Distinct(e, routes), request.effort);
    assert c in RoundCommands(e, k, request, routes) <==> c in starts;
    if c.round == k && c.index < |Distinct(e, routes)| && c.provider == Distinct(e, routes)[c.index]
       && c.effort == request.effort {
      assert starts[c.index] == c;
    }
  }

  /** The children that a run starts are exactly those of its answered rounds. */
  lemma {:induction false} ChildrenAreOfRounds(e: Edition, h: History, task: TaskInput, c: Command)
    requires AssessmentIn(h).Got? && c.StartChild?
    ensures var log := Execute(e, h, task).log;
            && |log.answers| <= |Requests(log.commands)|
            && (c in log.commands <==> ChildOf(e, Requests(log.commands), log.answers, c))
  {
    var log := Execute(e, h, task).log;
    CommandsAreRounds(e, h, task);
    ChildrenOfCommands(e, Requests(log.commands), log.answers, c);
    OpeningStartsNothing(h, c);
  }

  lemma {:induction false} OpeningStartsNothing(h: History, c: Command)
    requires c.StartChild?
    ensures c !in Opening(h)
  {}

  // ------------------------------------------------------------- effort

  /** Every request's effort is the task's, raised once for each earlier round that asked for a
      stronger model, and every child runs at its request's. */
  ghost predicate EffortsRaised(e: Edition, task: TaskInput, ta: TaskAssessment, log: Log) {
    var requests := Requests(log.commands);
    && |requests| <= |log.rounds| + 1
    && (forall k :: 0 <= k < |requests| ==>
          requests[k].effort == Repeat(StrongerEffort, task.effort, Strengthened(e, task, ta, log.rounds[..k])))
    && (forall c :: c in log.commands && c.StartChild? ==>
          1 <= c.round <= |requests| && c.effort == requests[c.round - 1].effort)
  }

  lemma {:induction false} RequestEffort(e: Edition, task: TaskInput, ta: TaskAssessment, rounds: seq<RoundLog>,
                                         effort: string, k: nat, up: string -> string)
    requires EffortChain(e, task, ta, rounds, up) && k <= |rounds|
    requires effort == if k == 0 then task.effort
                       else if AsksStronger(e, task, ta, rounds[k - 1]) then up(rounds[k - 1].request.effort)
                       else rounds[k - 1].request.effort
    ensures effort == Repeat(up, task.effort, Strengthened(e, task, ta, rounds[..k]))
  {
    if k > 0 {
      var was := rounds[k - 1].request.effort;
      var n := EffortBefore(e, task, ta, rounds, k, up, was);
      RaisedOnce(up, task.effort, n, AsksStronger(e, task, ta, rounds[k - 1]), was, effort);
    }
  }

  lemma {:induction false} EffortBefore(e: Edition, task: TaskInput, ta: TaskAssessment, rounds: seq<RoundLog>, k: nat,
                                        up: string -> string, was: string)
    returns (n: nat)
    requires EffortChain(e, task, ta, rounds, up) && 0 < k <= |rounds| && was == rounds[k - 1].request.effort
    ensures was == Repeat(up, task.effort, n)
    ensures Strengthened(e, task, ta, rounds[..k]) == n + if AsksStronger(e, task, ta, rounds[k - 1]) then 1 else 0
  {
    n := Strengthened(e, task, ta, rounds[..k - 1]);
    EffortAt(e, task, ta, rounds, k - 1, up);
    StrengthenedNext(e, task, ta, rounds, k);
  }

  lemma {:induction false} RaisedOnce(up: string -> string, start: string, n: nat, raised: bool, was: string,
                                      now: string)
    requires was == Repeat(up, start, n) && now == if raised then up(was) else was
    ensures now == Repeat(up, start, n + if raised then 1 else 0)
  {}

  lemma {:induction false} NextEffort(e: Edition, task: TaskInput, ta: TaskAssessment, rounds: seq<RoundLog>,
                                      requests: seq<Request>, k: nat)
    requires RequestsChained(e, task, ta, rounds, requests) && k < |requests|
    ensures k == 0 ==> requests[k].effort == task.effort
    ensures k > 0 ==>
              && k <= |rounds|
              && requests[k].effort
                 == if AsksStronger(e, task, ta, rounds[k - 1]) then StrongerEffort(rounds[k - 1].request.effort)
                    else rounds[k - 1].request.effort
  {
    if k > 0 {
      assert Requested(e, task, ta, rounds, k, requests[k]);
    }
  }

  /** The effort of a whole run, over the commands it issued. */
  lemma {:induction false} CommandEffortsClimb(e: Edition, h: History, task: TaskInput)
    requires AssessmentIn(h).Got?
    ensures EffortsRaised(e, task, AssessmentIn(h).value, Execute(e, h, task).log)
  {
    var ta, log := AssessmentIn(h).value, Execute(e, h, task).log;
    var requests := Requests(log.commands);
    CommandsAreRounds(e, h, task);
    RoundsAreChained(e, h, task);
    ChainedEfforts(e, task, ta, log.rounds);
    forall k | 0 <= k < |requests|
      ensures requests[k].effort == Repeat(StrongerEffort, task.effort, Strengthened(e, task, ta, log.rounds[..k]))
    {
      NextEffort(e, task, ta, log.rounds, requests, k);
      RequestEffort(e, task, ta, log.rounds, requests[k].effort, k, StrongerEffort);
    }
    forall c | c in log.commands && c.StartChild?
      ensures 1 <= c.round <= |requests| && c.effort == requests[c.round - 1].effort
    {
      ChildrenAreOfRounds(e, h, task, c);
    }
  }
}
