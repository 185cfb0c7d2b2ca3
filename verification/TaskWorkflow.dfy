/** The durable policy loop (src/durable_threads/temporal_workflows.py): assess, gate,
    route, execute children, pick the best, then complete, review, retry or stop.

    A workflow is driven by its event history.  Every `await` consumes activations;
    each activation delivers review signals first and then at most one job result. */
module TaskWorkflow {
  import opened Common
  import opened Intelligence

  // ---------------------------------------------------------------- contracts

  datatype ReviewDecision = ReviewDecision(approved: bool, note: string)

  datatype Verification = Verification(complete: bool, status: string)

  datatype AttemptResult = AttemptResult(
    provider: string, returnCode: int, verification: Verification, assessment: ResultAssessment,
    accepted: bool, reviewRequired: bool)

  datatype TaskInput = TaskInput(
    preferred: seq<string>, capabilities: set<string>, effort: string, maxAttempts: nat, parallelism: nat,
    waitForReview: bool)

  datatype Status = Complete | ReviewRequired | Rejected | Failed

  datatype TaskResult = TaskResult(
    status: Status, finalRisk: RiskClass, selected: Option<string>, assessment: TaskAssessment,
    attempts: seq<AttemptResult>, note: Option<string>)

  datatype Phase = Created | Assessing | WaitingForHumanReview | Routing | Executing | Ended(status: Status)

  // ------------------------------------------------------------------ history

  /** What one child execution reports: exit code, verified evidence, assessment. */
  datatype ChildReport = ChildReport(returnCode: int, verification: Verification, assessment: ResultAssessment)

  datatype Job =
    | NoJob
    | TaskAssessed(assessment: TaskAssessment)
    | Routed(routes: seq<string>)
    | ActivityFailed
    | ChildDone(index: nat, report: ChildReport)
    | ChildFailed(index: nat)
    | ChildCancelled(index: nat)

  datatype Activation = Activation(signals: seq<ReviewDecision>, job: Job)

  type History = seq<Activation>

  // --------------------------------------------------------------- pure parts

  function FailedAttempt(provider: string): AttemptResult {
    AttemptResult(provider, 1, Verification(false, "child_failure"),
                  ResultAssessment(0.0, 0.0, Some(HUMAN_REVIEW), false, false, true), false, true)
  }

  function AttemptOf(provider: string, report: ChildReport): AttemptResult {
    AttemptResult(provider, report.returnCode, report.verification, report.assessment,
                  report.assessment.accepted, report.assessment.reviewRequired)
  }

  datatype Rank = Rank(accepted: int, ready: int, semantic: real, evidence: real)

  function AttemptRank(a: AttemptResult): Rank {
    Rank(if a.accepted then 1 else 0, if a.assessment.integrationReady then 1 else 0,
         a.assessment.semantic, a.assessment.evidence)
  }

  /** Tuple order: the first differing component decides. */
  predicate RankLess(a: Rank, b: Rank) {
    || a.accepted < b.accepted
    || (a.accepted == b.accepted && a.ready < b.ready)
    || (a.accepted == b.accepted && a.ready == b.ready && a.semantic < b.semantic)
    || (a.accepted == b.accepted && a.ready == b.ready && a.semantic == b.semantic && a.evidence < b.evidence)
  }

  predicate Below(a: AttemptResult, b: AttemptResult) {
    RankLess(AttemptRank(a), AttemptRank(b))
  }

  /** `k` is the first attempt of maximal rank. */
  ghost predicate IsFirstMax(attempts: seq<AttemptResult>, k: nat) {
    && k < |attempts|
    && (forall i :: 0 <= i < |attempts| ==> !Below(attempts[k], attempts[i]))
    && (forall i :: 0 <= i < k ==> Below(attempts[i], attempts[k]))
  }

  function BestIndex(attempts: seq<AttemptResult>): (k: nat)
    requires attempts != []
    ensures IsFirstMax(attempts, k)
  {
    if |attempts| == 1 then 0
    else
      var k := BestIndex(attempts[..|attempts| - 1]);
      StillFirstMax(attempts, k);
      if Below(attempts[k], Last(attempts)) then |attempts| - 1 else k
  }

  /** One more attempt: the first maximum stays, or the new attempt is above all others. */
  lemma {:induction false} StillFirstMax(attempts: seq<AttemptResult>, k: nat)
    requires |attempts| > 1 && IsFirstMax(attempts[..|attempts| - 1], k)
    ensures IsFirstMax(attempts, if Below(attempts[k], Last(attempts)) then |attempts| - 1 else k)
  {
    var front := attempts[..|attempts| - 1];
    forall i | 0 <= i < |front| ensures front[i] == attempts[i] && !Below(attempts[k], attempts[i]) {}
  }

  function Best(attempts: seq<AttemptResult>): AttemptResult
    requires attempts != []
  {
    attempts[BestIndex(attempts)]
  }

  /** The choice is determined: any two first maxima coincide. */
  lemma {:induction false} FirstMaxUnique(attempts: seq<AttemptResult>, j: nat, k: nat)
    requires IsFirstMax(attempts, j) && IsFirstMax(attempts, k)
    ensures j == k
  {
    var first, second := attempts[j], attempts[k];
    assert !Below(second, first) && !Below(first, second);
  }

  const LADDER: seq<string> := ["none", "minimal", "low", "medium", "high", "xhigh", "max"]

  /** The first place of a text among the first n of a list. */
  function IndexOf(list: seq<string>, x: string, n: nat): (r: Option<nat>)
    requires n <= |list|
    ensures r.Some? ==> r.value < n
  {
    if n == 0 then None
    else match IndexOf(list, x, n - 1)
         case Some(i) => Some(i)
         case None => if list[n - 1] == x then Some(n - 1) else None
  }

  function StrongerEffort(current: string): string {
    match IndexOf(LADDER, current, |LADDER|)
    case None => "high"
    case Some(index) => LADDER[if index + 1 < |LADDER| - 1 then index + 1 else |LADDER| - 1]
  }

  /** Completed and verified: the chosen attempt may be integrated, subject to review. */
  predicate IntegrationReady(a: AttemptResult) {
    a.assessment.integrationReady && a.verification.complete && a.returnCode == 0
  }

  function ReviewNeeded(ta: TaskAssessment, a: AttemptResult): bool {
    ta.reviewRequired || a.reviewRequired
  }

  // ------------------------------------------------ awaiting, as pure functions

  datatype Awaited<T> = Pending | Raised | Got(value: T, next: nat)

  function AwaitAssessment(h: History, p: nat): (r: Awaited<TaskAssessment>)
    requires p <= |h|
    ensures r.Got? ==> p < r.next <= |h|
    decreases |h| - p
  {
    if p == |h| then Pending
    else match h[p].job
         case TaskAssessed(a) => Got(a, p + 1)
         case ActivityFailed => Raised
         case _ => AwaitAssessment(h, p + 1)
  }

  function AwaitRoutes(h: History, p: nat): (r: Awaited<seq<string>>)
    requires p <= |h|
    ensures r.Got? ==> p < r.next <= |h| && h[r.next - 1].job == Routed(r.value)
    decreases |h| - p
  {
    if p == |h| then Pending
    else match h[p].job
         case Routed(routes) => Got(routes, p + 1)
         case ActivityFailed => Raised
         case _ => AwaitRoutes(h, p + 1)
  }

  /** The first activation at or after `p` that carries a signal. */
  function AwaitSignal(h: History, p: nat): (r: Option<nat>)
    requires p <= |h|
    ensures r.Some? ==> p <= r.value < |h| && h[r.value].signals != []
    ensures r.Some? ==> forall i :: p <= i < r.value ==> h[i].signals == []
    ensures r.None? ==> forall i :: p <= i < |h| ==> h[i].signals == []
    decreases |h| - p
  {
    if p == |h| then None
    else if h[p].signals != [] then Some(p)
    else AwaitSignal(h, p + 1)
  }

  /** One result slot per child, in start order. */
  type Slots = seq<Option<AttemptResult>>

  predicate AllFilled(slots: Slots) {
    forall i :: 0 <= i < |slots| ==> slots[i].Some?
  }

  function Filled(slots: Slots): (r: seq<AttemptResult>)
    requires AllFilled(slots)
    ensures |r| == |slots|
    ensures forall i :: 0 <= i < |slots| ==> r[i] == slots[i].value
  {
    if slots == [] then [] else [slots[0].value] + Filled(slots[1..])
  }

  function EmptySlots(n: nat): (r: Slots)
    ensures |r| == n && forall i :: 0 <= i < n ==> r[i] == None
  {
    seq(n, _ => None)
  }

  /** The slot a job fills, if it answers a child that is still running. */
  function ChildAnswer(job: Job, providers: seq<string>, slots: Slots): (r: Option<(nat, Option<AttemptResult>)>)
    requires |slots| == |providers|
    ensures r.Some? ==> r.value.0 < |slots| && slots[r.value.0].None?
    ensures r.Some? && r.value.1.Some? ==> r.value.1.value.provider == providers[r.value.0]
  {
    match job
    case ChildDone(i, report) =>
      if i < |slots| && slots[i].None? then Some((i, Some(AttemptOf(providers[i], report)))) else None
    case ChildFailed(i) =>
      if i < |slots| && slots[i].None? then Some((i, Some(FailedAttempt(providers[i])))) else None
    case ChildCancelled(i) =>
      if i < |slots| && slots[i].None? then Some((i, None)) else None
    case _ => None
  }

  predicate SlotsOf(slots: Slots, providers: seq<string>) {
    && |slots| == |providers|
    && forall i :: 0 <= i < |slots| && slots[i].Some? ==> slots[i].value.provider == providers[i]
  }

  predicate ResultsOf(results: seq<AttemptResult>, providers: seq<string>) {
    && |results| == |providers|
    && forall i :: 0 <= i < |results| ==> results[i].provider == providers[i]
  }

  /** Gathers all children; a cancelled child cancels the run, a failed one becomes a result. */
  function AwaitChildren(h: History, p: nat, providers: seq<string>, slots: Slots): (r: Awaited<seq<AttemptResult>>)
    requires p <= |h| && SlotsOf(slots, providers)
    ensures r.Got? ==> p <= r.next <= |h| && ResultsOf(r.value, providers)
    decreases |h| - p
  {
    if AllFilled(slots) then Got(Filled(slots), p)
    else if p == |h| then Pending
    else match ChildAnswer(h[p].job, providers, slots)
         case None => AwaitChildren(h, p + 1, providers, slots)
         case Some((i, None)) => Raised
         case Some((i, Some(result))) => AwaitChildren(h, p + 1, providers, slots[i := Some(result)])
  }

  // ------------------------------------------------------- the run, as a value

  /** The loop variables that a routing request carries. */
  datatype Request = Request(effort: string, excluded: seq<string>, preferred: seq<string>)

  datatype Command =
    | Assess
    | Route(request: Request)
    | StartChild(round: nat, index: nat, provider: string, effort: string)
    | BeginWait

  /** One open-and-released review wait, and how many rounds had finished before it. */
  datatype Wait = Wait(begin: nat, release: nat, decision: ReviewDecision, rounds: nat)

  datatype RoundLog = RoundLog(
    request: Request, routes: seq<string>, providers: seq<string>, results: seq<AttemptResult>)

  /** The commands issued, the waits released, the rounds whose children have all reported,
      and the routing answers received. */
  datatype Log = Log(
    commands: seq<Command>, waits: seq<Wait>, rounds: seq<RoundLog>, answers: seq<seq<string>>)

  datatype Outcome = Blocked | Aborted | Finished(result: TaskResult)

  datatype Run = Run(outcome: Outcome, log: Log)

  /** The two implementations of the loop. */
  datatype Edition = Python | TypeScript

  /** Distinct providers in first-seen order.  The TypeScript edition also drops empty names. */
  function Distinct(e: Edition, routes: seq<string>): (r: seq<string>)
    ensures forall p :: p in r ==> p in routes
    ensures forall i, j :: 0 <= i < j < |r| ==> r[i] != r[j]
    ensures |r| <= |routes|
    ensures forall p :: p in routes && (e.Python? || p != "") ==> p in r
  {
    if routes == [] then []
    else
      var r := Distinct(e, routes[..|routes| - 1]);
      var p := Last(routes);
      if p in r || (e.TypeScript? && p == "") then r else r + [p]
  }

  /** Each provider's first mention, in order. */
  lemma {:induction false} DistinctIsFirsts(routes: seq<string>)
    ensures Distinct(Python, routes) == Firsts(routes)
  {
    if routes != [] {
      DistinctIsFirsts(routes[..|routes| - 1]);
    }
  }

  function StartCommands(round: nat, providers: seq<string>, effort: string): (r: seq<Command>)
    ensures |r| == |providers|
    ensures forall i :: 0 <= i < |r| ==> r[i] == StartChild(round, i, providers[i], effort)
  {
    seq(|providers|, i requires 0 <= i < |providers| => StartChild(round, i, providers[i], effort))
  }

  datatype Verdict =
    | Accept
    | AskReviewer(ifApproved: Status)
    | StopForReview
    | Switch
    | CorrectSame
    | Stronger

  /** The intervention as each edition reads a missing or empty value. */
  function Intervention(e: Edition, a: AttemptResult): string {
    match a.assessment.intervention
    case None => HUMAN_REVIEW
    case Some(text) => if e.Python? && text == "" then HUMAN_REVIEW else text
  }

  /** What a round's best attempt leads to. */
  function Decide(e: Edition, ta: TaskAssessment, best: AttemptResult, wait: bool): Verdict {
    var intervention := Intervention(e, best);
    if IntegrationReady(best) then
      if !ReviewNeeded(ta, best) then Accept else if wait then AskReviewer(Complete) else StopForReview
    else if intervention == SWITCH_EXECUTOR then Switch
    else if intervention == CORRECT_SAME then CorrectSame
    else if intervention == STRONGER_MODEL then Stronger
    else if wait && AsksUnready(e, ta, best) then AskReviewer(ReviewRequired)
    else StopForReview
  }

  /** When an attempt that is not ready is still shown to a waiting reviewer. */
  predicate AsksUnready(e: Edition, ta: TaskAssessment, best: AttemptResult) {
    var intervention := Intervention(e, best);
    if e.Python? then intervention == HUMAN_REVIEW
    else ReviewNeeded(ta, best) && (intervention == HUMAN_REVIEW || intervention == ACCEPT)
  }

  datatype Loop = Loop(pos: nat, round: nat, attempts: seq<AttemptResult>, request: Request, log: Log)

  datatype Step = Done(run: Run) | Again(loop: Loop)

  function GaveUp(ta: TaskAssessment, attempts: seq<AttemptResult>): TaskResult {
    TaskResult(Failed, ta.finalRisk, if attempts == [] then None else Some(Best(attempts).provider), ta, attempts, None)
  }

  function Issue(log: Log, commands: seq<Command>): Log {
    log.(commands := log.commands + commands)
  }

  function Answered(log: Log, routes: seq<string>): Log {
    log.(answers := log.answers + [routes])
  }

  /** A review wait opened at `p`: blocked, or released by the latest signal of the
      first activation that brings any. */
  datatype Reviewed = Unreleased(log: Log) | Released(log: Log, decision: ReviewDecision, next: nat)

  function Review(h: History, p: nat, log: Log): (r: Reviewed)
    requires p <= |h|
    ensures r.Released? ==> p < r.next <= |h|
  {
    var waiting := Issue(log, [BeginWait]);
    match AwaitSignal(h, p)
    case None => Unreleased(waiting)
    case Some(q) =>
      var decision := Last(h[q].signals);
      Released(waiting.(waits := waiting.waits + [Wait(p, q, decision, |log.rounds|)]), decision, q + 1)
  }

  /** What an intervention changes in the next request. */
  function Intervene(r: Request, best: AttemptResult, verdict: Verdict): Request {
    match verdict
    case Switch =>
      r.(excluded := if best.provider in r.excluded then r.excluded else r.excluded + [best.provider], preferred := [])
    case CorrectSame => r.(preferred := [best.provider])
    case Stronger => r.(effort := StrongerEffort(r.effort), preferred := [best.provider])
    case _ => r
  }

  function Conclude(h: History, ta: TaskAssessment, s: Loop, best: AttemptResult, verdict: Verdict): (r: Step)
    requires s.pos <= |h|
    ensures r.Again? ==> r.loop.pos == s.pos && r.loop.round == s.round
  {
    var result := TaskResult(ReviewRequired, ta.finalRisk, Some(best.provider), ta, s.attempts, None);
    match verdict
    case Accept => Done(Run(Finished(result.(status := Complete)), s.log))
    case StopForReview => Done(Run(Finished(result), s.log))
    case AskReviewer(ifApproved) =>
      (match Review(h, s.pos, s.log)
       case Unreleased(log) => Done(Run(Blocked, log))
       case Released(log, decision, _) =>
         var status := if decision.approved then ifApproved else Rejected;
         Done(Run(Finished(result.(status := status, note := Some(decision.note))), log)))
    case _ => Again(s.(request := Intervene(s.request, best, verdict)))
  }

  /** One pass through the loop body. */
  function OneRound(e: Edition, h: History, task: TaskInput, ta: TaskAssessment, s: Loop): (r: Step)
    requires s.pos <= |h|
    ensures r.Again? ==> s.pos <= r.loop.pos <= |h| && r.loop.round == s.round + 1
  {
    var log := Issue(s.log, [Route(s.request)]);
    match AwaitRoutes(h, s.pos)
    case Pending => Done(Run(Blocked, log))
    case Raised => Done(Run(Aborted, log))
    case Got(routes, p) =>
      if Distinct(e, routes) == [] then Done(Run(Finished(GaveUp(ta, s.attempts)), Answered(log, routes)))
      else RunProviders(e, h, task, ta, s, Answered(log, routes), routes, p)
  }

  function RunProviders(e: Edition, h: History, task: TaskInput, ta: TaskAssessment, s: Loop, log: Log,
                        routes: seq<string>, p: nat): (r: Step)
    requires s.pos <= p <= |h| && Distinct(e, routes) != []
    ensures r.Again? ==> p <= r.loop.pos <= |h| && r.loop.round == s.round + 1
  {
    var providers := Distinct(e, routes);
    var log' := Issue(log, StartCommands(s.round + 1, providers, s.request.effort));
    match AwaitChildren(h, p, providers, EmptySlots(|providers|))
    case Pending => Done(Run(Blocked, log'))
    case Raised => Done(Run(Aborted, log'))
    case Got(results, q) =>
      var s' := AfterChildren(s, log', routes, providers, results, q);
      Conclude(h, ta, s', Best(results), Decide(e, ta, Best(results), task.waitForReview))
  }

  function AfterChildren(s: Loop, log: Log, routes: seq<string>, providers: seq<string>,
                         results: seq<AttemptResult>, next: nat): Loop
  {
    var entry := RoundLog(s.request, routes, providers, results);
    s.(pos := next, round := s.round + 1, attempts := s.attempts + results,
       log := log.(rounds := log.rounds + [entry]))
  }

  function Rounds(e: Edition, h: History, task: TaskInput, ta: TaskAssessment, s: Loop): Run
    requires s.pos <= |h|
    decreases task.maxAttempts - s.round
  {
    if s.round >= task.maxAttempts then Run(Finished(GaveUp(ta, s.attempts)), s.log)
    else match OneRound(e, h, task, ta, s)
         case Done(run) => run
         case Again(s') => Rounds(e, h, task, ta, s')
  }

  function FirstLoop(task: TaskInput, p: nat, log: Log): Loop {
    Loop(p, 0, [], Request(task.effort, [], task.preferred), log)
  }

  const STARTED := Log([Assess], [], [], [])

  function AfterAssessment(e: Edition, h: History, task: TaskInput, ta: TaskAssessment, p: nat): Run
    requires p <= |h|
  {
    if ta.humanGateRequired then
      match Review(h, p, STARTED)
      case Unreleased(log) => Run(Blocked, log)
      case Released(log, decision, q) =>
        if decision.approved then Rounds(e, h, task, ta, FirstLoop(task, q, log))
        else Run(Finished(TaskResult(Rejected, ta.finalRisk, None, ta, [], Some(decision.note))), log)
    else Rounds(e, h, task, ta, FirstLoop(task, p, STARTED))
  }

  /** The whole run on a history prefix. */
  function Execute(e: Edition, h: History, task: TaskInput): Run {
    match AwaitAssessment(h, 0)
    case Pending => Run(Blocked, STARTED)
    case Raised => Run(Aborted, STARTED)
    case Got(ta, p) => AfterAssessment(e, h, task, ta, p)
  }

  // ------------------------------------------------------------- the workflow

  /** How the loop body ends: no executor left, a final outcome, or another round. */
  datatype Exit = Exhausted | Stop(outcome: Outcome) | Continue

  /** The step ended the run with this outcome, or goes on from this loop state. */
  predicate Realizes(step: Step, stop: Option<Outcome>, next: Loop, log: Log) {
    match step
    case Done(run) => stop == Some(run.outcome) && log == run.log
    case Again(s) => stop == None && s == next
  }

  class DurableTaskWorkflow {
    const history: History
    var cursor: nat
    var phase: Phase
    var risk: Option<RiskClass>
    var round: nat
    var activeProviders: seq<string>
    var reviewDecision: Option<ReviewDecision>
    ghost var log: Log

    constructor (history: History)
      ensures this.history == history && Fresh()
    {
      this.history := history;
      cursor, phase, risk, round, activeProviders, reviewDecision := 0, Created, None, 0, [], None;
      log := Log([], [], [], []);
    }

    predicate Valid()
      reads this
    {
      cursor <= |history|
    }

    ghost predicate Fresh()
      reads this
    {
      cursor == 0 && round == 0 && activeProviders == [] && log == Log([], [], [], [])
    }

    /** A blocked run is reported as waiting for a reviewer exactly while a wait is open, and
        a finished one under its status. */
    ghost predicate PhaseTells(outcome: Outcome)
      reads this
    {
      match outcome
      case Blocked => log.commands != [] && (phase == WaitingForHumanReview <==> Last(log.commands) == BeginWait)
      case Finished(result) => phase == Ended(result.status)
      case Aborted => true
    }

    /** The review signal handler: the latest decision overwrites an earlier one. */
    method ReceiveReview(decision: ReviewDecision)
      modifies this`reviewDecision
      ensures reviewDecision == Some(decision)
    {
      reviewDecision := Some(decision);
    }

    /** Takes the next activation: its signals reach the handler before its job is seen. */
    method Deliver() returns (job: Job)
      requires cursor < |history|
      modifies this`cursor, this`reviewDecision
      ensures cursor == old(cursor) + 1
      ensures job == history[old(cursor)].job
      ensures var signals := history[old(cursor)].signals;
              reviewDecision == if signals == [] then old(reviewDecision) else Some(Last(signals))
    {
      var signals := history[cursor].signals;
      for i := 0 to |signals|
        invariant cursor == old(cursor)
        invariant reviewDecision == if i == 0 then old(reviewDecision) else Some(signals[i - 1])
      {
        ReceiveReview(signals[i]);
      }
      job := history[cursor].job;
      cursor := cursor + 1;
    }

    method ExecuteAssessment() returns (r: Awaited<TaskAssessment>)
      requires Valid()
      modifies this`cursor, this`reviewDecision, this`log
      ensures Valid() && r == AwaitAssessment(history, old(cursor)) && (r.Got? ==> cursor == r.next)
      ensures log == Issue(old(log), [Assess])
    {
      log := Issue(log, [Assess]);
      while cursor < |history|
        invariant Valid()
        invariant log == Issue(old(log), [Assess])
        invariant AwaitAssessment(history, cursor) == AwaitAssessment(history, old(cursor))
        decreases |history| - cursor
      {
        var job := Deliver();
        match job {
          case TaskAssessed(a) => return Got(a, cursor);
          case ActivityFailed => return Raised;
          case _ =>
        }
      }
      return Pending;
    }

    method ExecuteRouting(effort: string, excluded: seq<string>, preferred: seq<string>)
      returns (r: Awaited<seq<string>>)
      requires Valid()
      modifies this`cursor, this`reviewDecision, this`log
      ensures Valid() && r == AwaitRoutes(history, old(cursor)) && (r.Got? ==> cursor == r.next)
      ensures var asked := Issue(old(log), [Route(Request(effort, excluded, preferred))]);
              log == if r.Got? then Answered(asked, r.value) else asked
    {
      log := Issue(log, [Route(Request(effort, excluded, preferred))]);
      while cursor < |history|
        invariant Valid()
        invariant log == Issue(old(log), [Route(Request(effort, excluded, preferred))])
        invariant AwaitRoutes(history, cursor) == AwaitRoutes(history, old(cursor))
        decreases |history| - cursor
      {
        var job := Deliver();
        match job {
          case Routed(routes) =>
            log := Answered(log, routes);
            return Got(routes, cursor);
          case ActivityFailed => return Raised;
          case _ =>
        }
      }
      return Pending;
    }

    /** Clears any decision that is already there, then waits for a new one. */
    method WaitForReview() returns (decision: Option<ReviewDecision>)
      requires Valid()
      modifies this`cursor, this`reviewDecision, this`log, this`phase
      ensures Valid() && phase == WaitingForHumanReview && reviewDecision == None
      ensures match Review(history, old(cursor), old(log))
              case Unreleased(log') => decision == None && log == log'
              case Released(log', d, next) => decision == Some(d) && log == log' && cursor == next
    {
      phase := WaitingForHumanReview;
      reviewDecision := None;
      ghost var begin := cursor;
      log := Issue(log, [BeginWait]);
      while reviewDecision == None && cursor < |history|
        invariant begin <= cursor <= |history| && phase == WaitingForHumanReview
        invariant log == Issue(old(log), [BeginWait])
        invariant reviewDecision == None ==> AwaitSignal(history, cursor) == AwaitSignal(history, begin)
        invariant reviewDecision.Some? ==>
          begin < cursor && AwaitSignal(history, begin) == Some(cursor - 1)
          && reviewDecision.value == Last(history[cursor - 1].signals)
        decreases |history| - cursor
      {
        var _ := Deliver();
      }
      decision := reviewDecision;
      if decision.Some? {
        log := log.(waits := log.waits + [Wait(begin, cursor - 1, decision.value, |log.rounds|)]);
      }
      reviewDecision := None;
    }

    /** Starts one child per provider and gathers their results in start order. */
    method RunChildren(providers: seq<string>, effort: string) returns (r: Awaited<seq<AttemptResult>>)
      requires Valid()
      modifies this`cursor, this`reviewDecision, this`log, this`activeProviders
      ensures Valid()
      ensures r == AwaitChildren(history, old(cursor), providers, EmptySlots(|providers|))
      ensures r.Got? ==> cursor == r.next && activeProviders == []
      ensures log == Issue(old(log), StartCommands(round, providers, effort))
    {
      activeProviders := providers;
      log := Issue(log, StartCommands(round, providers, effort));
      var slots := EmptySlots(|providers|);
      while !AllFilled(slots) && cursor < |history|
        invariant Valid() && SlotsOf(slots, providers)
        invariant log == Issue(old(log), StartCommands(round, providers, effort))
        invariant AwaitChildren(history, cursor, providers, slots)
               == AwaitChildren(history, old(cursor), providers, EmptySlots(|providers|))
        decreases |history| - cursor
      {
        var job := Deliver();
        match ChildAnswer(job, providers, slots) {
          case None =>
          case Some((i, None)) => return Raised;
          case Some((i, Some(result))) => slots := slots[i := Some(result)];
        }
      }
      if !AllFilled(slots) {
        return Pending;
      }
      activeProviders := [];
      return Got(Filled(slots), cursor);
    }

    method Finish(status: Status, ta: TaskAssessment, attempts: seq<AttemptResult>, provider: Option<string>,
                  note: Option<string>) returns (outcome: Outcome)
      modifies this`phase
      ensures phase == Ended(status)
      ensures outcome == Finished(TaskResult(status, ta.finalRisk, provider, ta, attempts, note))
    {
      phase := Ended(status);
      outcome := Finished(TaskResult(status, ta.finalRisk, provider, ta, attempts, note));
    }

    method SelectDistinct(routes: seq<string>) returns (providers: seq<string>)
      ensures providers == Distinct(Python, routes)
    {
      providers := [];
      for i := 0 to |routes|
        invariant providers == Distinct(Python, routes[..i])
      {
        assert routes[..i + 1][..i] == routes[..i];
        if routes[i] !in providers {
          providers := providers + [routes[i]];
        }
      }
      assert routes[..|routes|] == routes;
    }

    /** Asks the reviewer when the task waits for one, and stops otherwise. */
    method ReviewOrStop(task: TaskInput, ta: TaskAssessment, ghost s: Loop, attempts: seq<AttemptResult>,
                        best: AttemptResult, ifApproved: Status) returns (outcome: Outcome)
      requires Valid() && s == Loop(cursor, round, attempts, s.request, log)
      modifies this`cursor, this`reviewDecision, this`log, this`phase
      ensures Valid() && PhaseTells(outcome)
      ensures Done(Run(outcome, log)) ==
              Conclude(history, ta, s, best, if task.waitForReview then AskReviewer(ifApproved) else StopForReview)
    {
      if task.waitForReview {
        var decision := WaitForReview();
        if decision == None {
          return Blocked;
        }
        var status := if decision.value.approved then ifApproved else Rejected;
        outcome := Finish(status, ta, attempts, Some(best.provider), Some(decision.value.note));
      } else {
        outcome := Finish(ReviewRequired, ta, attempts, Some(best.provider), None);
      }
    }

    /** The rest of a round once its children have reported. */
    method AfterRound(task: TaskInput, ta: TaskAssessment, ghost s: Loop, attempts: seq<AttemptResult>,
                      best: AttemptResult, excluded: seq<string>, preferred: seq<string>, effort: string)
      returns (stop: Option<Outcome>, excluded': seq<string>, preferred': seq<string>, effort': string)
      requires Valid()
      requires s == Loop(cursor, round, attempts, Request(effort, excluded, preferred), log)
      modifies this`cursor, this`reviewDecision, this`log, this`phase
      ensures Valid()
      ensures Realizes(Conclude(history, ta, s, best, Decide(Python, ta, best, task.waitForReview)), stop,
                       Loop(cursor, round, attempts, Request(effort', excluded', preferred'), log), log)
      ensures stop.Some? ==> PhaseTells(stop.value)
    {
      excluded', preferred', effort' := excluded, preferred, effort;
      ghost var verdict := Decide(Python, ta, best, task.waitForReview);
      var semantic := best.assessment;
      var integrationReady := semantic.integrationReady && best.verification.complete && best.returnCode == 0;
      var gate := CompletionGate(integrationReady, ta.reviewRequired, best.reviewRequired, false);
      if gate == GateComplete {
        assert verdict == Accept;
        var outcome := Finish(Complete, ta, attempts, Some(best.provider), None);
        return Some(outcome), excluded', preferred', effort';
      }
      var reviewRequired := ta.reviewRequired || best.reviewRequired;
      if integrationReady && reviewRequired {
        assert verdict == if task.waitForReview then AskReviewer(Complete) else StopForReview;
        var outcome := ReviewOrStop(task, ta, s, attempts, best, Complete);
        return Some(outcome), excluded', preferred', effort';
      }
      var intervention :=
        if semantic.intervention == None || semantic.intervention.value == "" then HUMAN_REVIEW
        else semantic.intervention.value;
      InterventionNames();
      if intervention == HUMAN_REVIEW {
        assert verdict == if task.waitForReview then AskReviewer(ReviewRequired) else StopForReview;
        var outcome := ReviewOrStop(task, ta, s, attempts, best, if integrationReady then Complete else ReviewRequired);
        return Some(outcome), excluded', preferred', effort';
      }
      stop := None;
      if intervention == SWITCH_EXECUTOR {
        if best.provider !in excluded {
          excluded' := excluded + [best.provider];
        }
        preferred' := [];
      } else if intervention == CORRECT_SAME {
        preferred' := [best.provider];
      } else if intervention == STRONGER_MODEL {
        effort' := StrongerEffort(effort);
        preferred' := [best.provider];
      } else {
        var outcome := Finish(ReviewRequired, ta, attempts, Some(best.provider), None);
        stop := Some(outcome);
      }
    }

    /** One pass through the loop body; `Exhausted` is the source's `break`. */
    method PlayRound(task: TaskInput, ta: TaskAssessment, attempts: seq<AttemptResult>, excluded: seq<string>,
                     preferred: seq<string>, effort: string)
      returns (exit: Exit, attempts': seq<AttemptResult>, excluded': seq<string>, preferred': seq<string>,
               effort': string)
      requires Valid()
      modifies this`cursor, this`reviewDecision, this`log, this`phase, this`activeProviders, this`round
      ensures Valid()
      ensures var step := OneRound(Python, history, task, ta,
                Loop(old(cursor), old(round), attempts, Request(effort, excluded, preferred), old(log)));
              match exit
              case Exhausted => attempts' == attempts && step == Done(Run(Finished(GaveUp(ta, attempts)), log))
              case Stop(outcome) => step == Done(Run(outcome, log)) && PhaseTells(outcome)
              case Continue =>
                step == Again(Loop(cursor, round, attempts', Request(effort', excluded', preferred'), log))
    {
      attempts', excluded', preferred', effort' := attempts, excluded, preferred, effort;
      ghost var s := Loop(cursor, round, attempts, Request(effort, excluded, preferred), log);
      round := round + 1;
      phase := Routing;
      var routed := ExecuteRouting(effort, excluded, preferred);
      if !routed.Got? {
        return Stop(if routed.Pending? then Blocked else Aborted), attempts', excluded', preferred', effort';
      }
      var providers := SelectDistinct(routed.value);
      if providers == [] {
        return Exhausted, attempts', excluded', preferred', effort';
      }
      var stop: Option<Outcome>;
      stop, attempts', excluded', preferred', effort' :=
        PlayProviders(task, ta, s, routed.value, providers, attempts, excluded, preferred, effort);
      exit := if stop.Some? then Stop(stop.value) else Continue;
    }

    /** The children have reported: the best report decides. */
    method Report(task: TaskInput, ta: TaskAssessment, ghost s: Loop, current: seq<AttemptResult>,
                  attempts: seq<AttemptResult>, excluded: seq<string>, preferred: seq<string>, effort: string)
      returns (stop: Option<Outcome>, attempts': seq<AttemptResult>, excluded': seq<string>, preferred': seq<string>,
               effort': string)
      requires Valid() && current != []
      requires s == Loop(cursor, round, attempts + current, Request(effort, excluded, preferred), s.log)
      modifies this`cursor, this`reviewDecision, this`log, this`phase
      ensures Valid()
      ensures Realizes(Conclude(history, ta, s, Best(current), Decide(Python, ta, Best(current), task.waitForReview)),
                       stop, Loop(cursor, round, attempts', Request(effort', excluded', preferred'), log), log)
      ensures stop.Some? ==> PhaseTells(stop.value)
    {
      log := s.log;
      attempts' := attempts + current;
      stop, excluded', preferred', effort' :=
        AfterRound(task, ta, s, attempts', Best(current), excluded, preferred, effort);
    }

    method PlayProviders(task: TaskInput, ta: TaskAssessment, ghost s: Loop, ghost routes: seq<string>,
                         providers: seq<string>, attempts: seq<AttemptResult>, excluded: seq<string>,
                         preferred: seq<string>, effort: string)
      returns (stop: Option<Outcome>, attempts': seq<AttemptResult>, excluded': seq<string>, preferred': seq<string>,
               effort': string)
      requires Valid() && round > 0 && s.pos <= cursor && providers == Distinct(Python, routes) != []
      requires s == Loop(s.pos, round - 1, attempts, Request(effort, excluded, preferred), s.log)
      modifies this`cursor, this`reviewDecision, this`log, this`phase, this`activeProviders
      ensures Valid()
      ensures Realizes(RunProviders(Python, history, task, ta, s, old(log), routes, old(cursor)), stop,
                       Loop(cursor, round, attempts', Request(effort', excluded', preferred'), log), log)
      ensures stop.Some? ==> PhaseTells(stop.value)
    {
      attempts', excluded', preferred', effort' := attempts, excluded, preferred, effort;
      phase := Executing;
      var gathered := RunChildren(providers, effort);
      if !gathered.Got? {
        return Some(if gathered.Pending? then Blocked else Aborted), attempts', excluded', preferred', effort';
      }
      stop, attempts', excluded', preferred', effort' :=
        Report(task, ta, AfterChildren(s, log, routes, providers, gathered.value, cursor), gathered.value, attempts,
               excluded, preferred, effort);
    }

    method RunRounds(task: TaskInput, ta: TaskAssessment) returns (outcome: Outcome)
      requires Valid() && round == 0
      modifies this`cursor, this`reviewDecision, this`log, this`phase, this`activeProviders, this`round
      ensures Run(outcome, log) == Rounds(Python, history, task, ta, FirstLoop(task, old(cursor), old(log)))
      ensures PhaseTells(outcome)
    {
      var attempts, excluded, preferred, effort := [], [], task.preferred, task.effort;
      ghost var s := FirstLoop(task, cursor, log);
      while round < task.maxAttempts
        invariant Valid() && s == Loop(cursor, round, attempts, Request(effort, excluded, preferred), log)
        invariant Rounds(Python, history, task, ta, s)
               == Rounds(Python, history, task, ta, FirstLoop(task, old(cursor), old(log)))
      {
        var exit: Exit;
        exit, attempts, excluded, preferred, effort := PlayRound(task, ta, attempts, excluded, preferred, effort);
        if exit.Stop? {
          return exit.outcome;
        }
        if exit.Exhausted? {
          break;
        }
        s := Loop(cursor, round, attempts, Request(effort, excluded, preferred), log);
      }
      var selected := if attempts == [] then None else Some(Best(attempts).provider);
      outcome := Finish(Failed, ta, attempts, selected, None);
    }

    /** The consequence gate, then the rounds. */
    method RunAssessed(task: TaskInput, ta: TaskAssessment) returns (outcome: Outcome)
      requires Valid() && round == 0 && log == STARTED && phase == Assessing
      modifies this`cursor, this`reviewDecision, this`log, this`phase, this`activeProviders, this`round
      ensures Run(outcome, log) == AfterAssessment(Python, history, task, ta, old(cursor))
      ensures PhaseTells(outcome)
    {
      if ta.humanGateRequired {
        var decision := WaitForReview();
        if decision == None {
          return Blocked;
        }
        if !decision.value.approved {
          outcome := Finish(Rejected, ta, [], None, Some(decision.value.note));
          return;
        }
      }
      outcome := RunRounds(task, ta);
    }

    method RunTask(task: TaskInput) returns (outcome: Outcome)
      requires Fresh()
      modifies this
      ensures Run(outcome, log) == Execute(Python, history, task)
      ensures PhaseTells(outcome)
    {
      phase := Assessing;
      var assessed := ExecuteAssessment();
      match assessed {
        case Pending => return Blocked;
        case Raised => return Aborted;
        case Got(ta, _) =>
          risk := Some(ta.finalRisk);
          outcome := RunAssessed(task, ta);
      }
    }
  }
}
