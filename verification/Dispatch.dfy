/** The dispatch command (src/durable_threads/cli.py): claim, start the provider, record
    the outcome, and record `unknown` when anything fails after the claim. */
module Dispatch {
  import opened Common
  import opened TaskLedger

  // ------------------------------------------------------------ one dispatch

  /** What the provider run brought back: it may fail to run, and evidence checking may
      raise or give a verdict. */
  datatype Evidence = NotRequested | Raises | Verdict(complete: bool)

  datatype Attempt =
    | RunFailed
    | Returned(code: int, sessionId: Option<string>, usage: Option<map<string, int>>, evidence: Evidence)

  datatype Exit = Raised(error: Option<Error>) | Code(code: int)

  predicate SessionChanged(a: BeginArgs, sessionId: Option<string>) {
    Given(a.threadId) && Given(sessionId) && a.threadId != sessionId
  }

  predicate Accepted(attempt: Attempt) {
    && attempt.Returned? && attempt.code == 0
    && (attempt.evidence.NotRequested? || attempt.evidence == Verdict(true))
  }

  /** The status a claimed dispatch leaves behind. */
  function FinalStatus(a: BeginArgs, attempt: Attempt): (r: string)
    ensures r in STOPS && r != RUNNING
  {
    if attempt.RunFailed? || SessionChanged(a, attempt.sessionId) || attempt.evidence.Raises? then UNKNOWN
    else if !Accepted(attempt) then BLOCKED
    else if attempt.evidence.NotRequested? then UNVERIFIED
    else COMPLETE
  }

  lemma {:induction false} StatusNames()
    ensures COMPLETE !in {BLOCKED, UNKNOWN, UNVERIFIED, RUNNING} && RUNNING !in {BLOCKED, UNKNOWN, UNVERIFIED}
  {
    assert COMPLETE[0] == 'c' && BLOCKED[0] == 'b' && RUNNING[0] == 'r' && UNKNOWN[0] == UNVERIFIED[0] == 'u';
  }

  /** The recorded status is `complete` exactly for a zero exit, in the session asked for,
      with evidence that was checked and found complete. */
  lemma {:induction false} CompleteNeedsEvidence(a: BeginArgs, attempt: Attempt)
    ensures FinalStatus(a, attempt) == COMPLETE
       <==> (&& attempt.Returned? && attempt.code == 0 && attempt.evidence == Verdict(true)
             && !SessionChanged(a, attempt.sessionId))
  {
    StatusNames();
  }

  function Note(id: string, a: BeginArgs, status: string, attempt: Attempt): RecordArgs
    requires attempt.Returned?
  {
    var result :=
      if attempt.evidence.Verdict? && Accepted(attempt) then "Provider completed. Evidence was verified."
      else if attempt.code == 0 then "Provider completed. Evidence was not verified."
      else "Provider returned exit code " + IntText(attempt.code) + ".";
    RecordArgs(a.role, status, Some(a.provider),
               if Given(attempt.sessionId) then attempt.sessionId else a.threadId, Some(result), attempt.usage)
  }

  function StopRecord(a: BeginArgs): RecordArgs {
    RecordArgs(a.role, UNKNOWN, Some(a.provider), a.threadId, Some("Dispatch stopped."), None)
  }

  /** The whole effect of one undisturbed dispatch on the ledger. */
  function DispatchEffect(redact: Redactor, disk: Disk, id: string, a: BeginArgs, attempt: Attempt): Disk {
    var claimed := Decide(redact, disk, Begin(id, a));
    if claimed.Refuse? then disk
    else
      var held := After(disk, claimed);
      var status := FinalStatus(a, attempt);
      var record := if status == UNKNOWN then StopRecord(a) else Note(id, a, status, attempt);
      After(held, Decide(redact, held, Record(id, record)))
  }

  /** How a dispatch that claimed its task ends. */
  function ExitOf(a: BeginArgs, attempt: Attempt): Exit {
    if FinalStatus(a, attempt) == UNKNOWN then Raised(None)
    else Code(if Accepted(attempt) then 0 else if attempt.code == 0 then 2 else attempt.code)
  }

  /** It did not run, came back in another session, or its evidence could not be checked. */
  predicate CannotTell(a: BeginArgs, attempt: Attempt) {
    || attempt.RunFailed?
    || attempt.evidence.Raises?
    || (a.threadId.Some? && attempt.sessionId.Some? && a.threadId != attempt.sessionId
        && a.threadId.value != "" && attempt.sessionId.value != "")
  }

  /** The four statuses that a claimed dispatch can leave, and the exit of each: 0 for accepted
      work, verified or not; the provider's own code, or 2 in its place if that is 0, for work
      that was not accepted; and an error where nothing can be told. */
  lemma {:induction false} EndsMean(a: BeginArgs, attempt: Attempt)
    ensures var status := FinalStatus(a, attempt);
            && (status == "unknown" <==> CannotTell(a, attempt))
            && (status == "unverified" <==>
                  !CannotTell(a, attempt) && attempt.code == 0 && attempt.evidence.NotRequested?)
            && (status == "complete" <==>
                  !CannotTell(a, attempt) && attempt.code == 0 && attempt.evidence == Verdict(true))
            && (status == "blocked" <==>
                  !CannotTell(a, attempt) && (attempt.code != 0 || attempt.evidence == Verdict(false)))
            && (ExitOf(a, attempt) == Raised(None) <==> status == "unknown")
            && (ExitOf(a, attempt) == Code(0) <==> status == "unverified" || status == "complete")
            && (status == "blocked" ==> ExitOf(a, attempt) == Code(if attempt.code == 0 then 2 else attempt.code))
  {
    StatusNames();
    assert UNKNOWN[2] == 'k' && UNVERIFIED[2] == 'v' && BLOCKED[0] == 'b';
  }

  /** What a dispatch that could tell its outcome leaves in the ledger. */
  predicate Noted(redact: Redactor, a: BeginArgs, attempt: Attempt, before: Task, t: Task)
    requires attempt.Returned?
  {
    && t.status == Some(redact(FinalStatus(a, attempt)))
    && t.role == Some(redact(a.role)) && (a.provider != "" ==> t.provider == Some(redact(a.provider)))
    && t.followups == TaskLedger.Whole(a.index) && t.maxFollowups == TaskLedger.Whole(a.limit)
    && t.usage == (if attempt.usage.Some? then attempt.usage else before.usage)
    && (Given(attempt.sessionId) ==> t.threadId == Some(redact(attempt.sessionId.value)))
    && (!Given(attempt.sessionId) && Given(a.threadId) ==> t.threadId == Some(redact(a.threadId.value)))
    && t.result == Some(redact(
         if FinalStatus(a, attempt) == "complete" then "Provider completed. Evidence was verified."
         else if attempt.code == 0 then "Provider completed. Evidence was not verified."
         else "Provider returned exit code " + IntText(attempt.code) + "."))
  }

  /** What a dispatch that could not leaves: the session it asked for, if any, and no usage. */
  predicate Stopped(redact: Redactor, a: BeginArgs, before: Task, t: Task) {
    && t.status == Some(redact("unknown"))
    && t.role == Some(redact(a.role)) && (a.provider != "" ==> t.provider == Some(redact(a.provider)))
    && t.followups == TaskLedger.Whole(a.index) && t.maxFollowups == TaskLedger.Whole(a.limit)
    && t.usage == before.usage
    && (Given(a.threadId) ==> t.threadId == Some(redact(a.threadId.value)))
  }

  lemma {:induction false} NoteIsNoted(redact: Redactor, id: string, a: BeginArgs, attempt: Attempt, before: Task,
                                       held: Disk, status: string)
    requires attempt.Returned? && status == FinalStatus(a, attempt) != UNKNOWN
    requires MentionsTask(held, id) && held.tasks[id].Object?
    requires var t := held.tasks[id].task;
             t.usage == before.usage && t.followups == TaskLedger.Whole(a.index)
             && t.maxFollowups == TaskLedger.Whole(a.limit)
    ensures var tasks := TasksOf(After(held, Decide(redact, held, Record(id, Note(id, a, status, attempt)))));
            id in tasks && tasks[id].Object? && Noted(redact, a, attempt, before, tasks[id].task)
  {
    EndsMean(a, attempt);
    RecordMeans(redact, held, id, Note(id, a, status, attempt));
  }

  lemma {:induction false} StopIsStopped(redact: Redactor, id: string, a: BeginArgs, before: Task, held: Disk)
    requires MentionsTask(held, id) && held.tasks[id].Object?
    requires var t := held.tasks[id].task;
             t.usage == before.usage && t.followups == TaskLedger.Whole(a.index)
             && t.maxFollowups == TaskLedger.Whole(a.limit)
    ensures var tasks := TasksOf(After(held, Decide(redact, held, Record(id, StopRecord(a)))));
            id in tasks && tasks[id].Object? && Stopped(redact, a, before, tasks[id].task)
  {
    RecordMeans(redact, held, id, StopRecord(a));
  }

  /** What a granted dispatch leaves in the ledger, as its caller sees it. */
  lemma {:induction false} DispatchLeaves(redact: Redactor, disk: Disk, id: string, a: BeginArgs, attempt: Attempt)
    requires Decide(redact, disk, Begin(id, a)).Write?
    ensures var before, tasks := Existing(TasksOf(disk), id), TasksOf(DispatchEffect(redact, disk, id, a, attempt));
            && id in tasks && tasks[id].Object?
            && (CannotTell(a, attempt) ==> Stopped(redact, a, before, tasks[id].task))
            && (!CannotTell(a, attempt) ==> Noted(redact, a, attempt, before, tasks[id].task))
  {
    var before := Existing(TasksOf(disk), id);
    var held := After(disk, Decide(redact, disk, Begin(id, a)));
    ClaimMeans(redact, disk, id, a);
    EndsMean(a, attempt);
    if CannotTell(a, attempt) {
      StopIsStopped(redact, id, a, before, held);
    } else {
      NoteIsNoted(redact, id, a, attempt, before, held, FinalStatus(a, attempt));
    }
  }

  /** A lock file that is already there, or a refused claim, starts nothing and changes nothing.
      A granted one starts the provider once and leaves the task in the state that
      `FinalStatus` names. */
  method Run(ledger: Ledger, id: string, a: BeginArgs, attempt: Attempt) returns (exit: Exit, started: bool)
    modifies ledger
    ensures ledger.lock == old(ledger.lock)
    ensures old(ledger.lock) ==> exit == Raised(Some(Locked)) && !started && ledger.disk == old(ledger.disk)
    ensures !old(ledger.lock) ==>
              && ledger.disk == DispatchEffect(ledger.redact, old(ledger.disk), id, a, attempt)
              && (started <==> Decide(ledger.redact, old(ledger.disk), Begin(id, a)).Write?)
              && (!started ==> exit == Raised(Some(Decide(ledger.redact, old(ledger.disk), Begin(id, a)).error)))
    ensures started ==> exit == ExitOf(a, attempt)
  {
    StatusNames();
    started := false;
    var claim := ledger.BeginTask(id, a);
    if claim.Refused? {
      return Raised(Some(claim.error)), false;
    }
    started := true;
    var failed := attempt.RunFailed?;
    if attempt.Returned? {
      if Given(a.threadId) && Given(attempt.sessionId) && a.threadId != attempt.sessionId {
        failed := true;
      } else if attempt.evidence.Raises? {
        failed := true;
      }
    }
    if failed {
      var _ := ledger.RecordTask(id, StopRecord(a));
      return Raised(None), true;
    }
    var verified := attempt.evidence.Verdict?;
    var accepted := attempt.code == 0 && (!verified || attempt.evidence.complete);
    var status := if accepted && verified then COMPLETE else if accepted then UNVERIFIED else BLOCKED;
    var _ := ledger.RecordTask(id, Note(id, a, status, attempt));
    exit := Code(if attempt.code != 0 then attempt.code else if accepted then 0 else 2);
  }

  // --------------------------------------------- many dispatches and records

  /** A dispatch process between its atomic ledger commands. */
  datatype Phase = Idle | Pending(args: BeginArgs) | Ran(args: BeginArgs) | Crashed

  /** `claims` are the granted claims of the task, `starts` counts provider starts and
      `retries` the plain records that left a retryable status. */
  datatype World = World(disk: Disk, phases: seq<Phase>, claims: seq<BeginArgs>, starts: nat, retries: nat)

  datatype Act =
    | Claim(args: BeginArgs)
    | StartProvider
    | Report(attempt: Attempt)  // the outcome is recorded
    | Abort                     // `unknown` is recorded, at any time after the claim
    | Leave                     // ends, or fails, without recording
    | Crash

  datatype Move =
    | Do(p: nat, act: Act)        // one dispatch process moves
    | PlainRecord(record: RecordArgs)  // the record command on this task
    | Elsewhere(op: Op)           // any command on another task

  function Write(redact: Redactor, disk: Disk, op: Op): Disk {
    After(disk, Decide(redact, disk, op))
  }

  function Status(disk: Disk, id: string): Option<string> {
    if MentionsTask(disk, id) && disk.tasks[id].Object? then disk.tasks[id].task.status else None
  }

  predicate Retryable(redact: Redactor, status: string) {
    redact(status) !in STOPS
  }

  function Next(redact: Redactor, id: string, w: World, m: Move): (r: World)
    ensures |r.phases| == |w.phases|
  {
    match m
    case PlainRecord(record) =>
      var disk := Write(redact, w.disk, Record(id, record));
      w.(disk := disk, retries := w.retries + if Retryable(redact, record.status) then 1 else 0)
    case Elsewhere(op) => if op.id == id then w else w.(disk := Write(redact, w.disk, op))
    case Do(p, act) => if p < |w.phases| then NextOf(redact, id, w, p, act) else w
  }

  function NextOf(redact: Redactor, id: string, w: World, p: nat, act: Act): (r: World)
    requires p < |w.phases|
    ensures |r.phases| == |w.phases|
  {
    match act
    case Claim(args) =>
      if w.phases[p] == Idle && Decide(redact, w.disk, Begin(id, args)).Write?
      then w.(disk := Write(redact, w.disk, Begin(id, args)), claims := w.claims + [args],
              phases := w.phases[p := Pending(args)])
      else w
    case StartProvider =>
      if w.phases[p].Pending? then w.(starts := w.starts + 1, phases := w.phases[p := Ran(w.phases[p].args)]) else w
    case Report(attempt) =>
      if w.phases[p].Ran? && FinalStatus(w.phases[p].args, attempt) != UNKNOWN then
        var args := w.phases[p].args;
        w.(disk := Write(redact, w.disk, Record(id, Note(id, args, FinalStatus(args, attempt), attempt))))
      else w
    case Abort =>
      if w.phases[p].Pending? || w.phases[p].Ran? then
        w.(disk := Write(redact, w.disk, Record(id, StopRecord(w.phases[p].args))), phases := w.phases[p := Idle])
      else w
    case Leave => if w.phases[p].Pending? || w.phases[p].Ran? then w.(phases := w.phases[p := Idle]) else w
    case Crash => w.(phases := w.phases[p := Crashed])
  }

  /** The moves of one undisturbed dispatch that may claim. */
  function DispatchMoves(p: nat, a: BeginArgs, attempt: Attempt): seq<Move> {
    var report := if FinalStatus(a, attempt) == UNKNOWN then Abort else Report(attempt);
    [Do(p, Claim(a)), Do(p, StartProvider), Do(p, report)]
  }

  function Play(redact: Redactor, id: string, w: World, moves: seq<Move>): (r: World)
    ensures |r.phases| == |w.phases|
  {
    if moves == [] then w else Next(redact, id, Play(redact, id, w, moves[..|moves| - 1]), Last(moves))
  }

  function Begun(disk: Disk, n: nat): World {
    World(disk, seq(n, _ => Idle), [], 0, 0)
  }

  /** A process that makes these moves does to the ledger what `Run` does: it has the effect of
      one dispatch and starts the provider once. */
  lemma {:induction false} DispatchByMoves(redact: Redactor, id: string, w: World, p: nat, a: BeginArgs,
                                           attempt: Attempt)
    requires p < |w.phases| && w.phases[p] == Idle && Decide(redact, w.disk, Begin(id, a)).Write?
    ensures var w' := Play(redact, id, w, DispatchMoves(p, a, attempt));
            && w'.disk == DispatchEffect(redact, w.disk, id, a, attempt)
            && w'.starts == w.starts + 1 && w'.claims == w.claims + [a]
  {
    var moves := DispatchMoves(p, a, attempt);
    assert moves[..2][..1] == moves[..1] && moves[..1][..0] == [];
    var claimed := Next(redact, id, w, moves[0]);
    assert Play(redact, id, w, moves[..1]) == claimed;
    var ran := Next(redact, id, claimed, moves[1]);
    assert Play(redact, id, w, moves[..2]) == ran;
    assert ran.phases[p] == Ran(a);
  }

  /** And a dispatch that may not claim moves nothing. */
  lemma {:induction false} RefusedByMoves(redact: Redactor, id: string, w: World, p: nat, a: BeginArgs)
    requires p < |w.phases| && w.phases[p] == Idle && Decide(redact, w.disk, Begin(id, a)).Refuse?
    ensures Next(redact, id, w, Do(p, Claim(a))) == w
  {}

  /** Claims whose provider has not been started yet. */
  function Unstarted(phases: seq<Phase>): nat {
    if phases == [] then 0 else Unstarted(phases[..|phases| - 1]) + if Last(phases).Pending? then 1 else 0
  }

  lemma {:induction false} UnstartedUpdate(phases: seq<Phase>, p: nat, x: Phase)
    requires p < |phases|
    ensures Unstarted(phases[p := x]) + (if phases[p].Pending? then 1 else 0)
         == Unstarted(phases) + (if x.Pending? then 1 else 0)
  {
    var n := |phases| - 1;
    if p == n {
      assert phases[p := x][..n] == phases[..n];
    } else {
      assert phases[p := x][..n] == phases[..n][p := x];
      UnstartedUpdate(phases[..n], p, x);
    }
  }

  lemma {:induction false} NoneUnstarted(phases: seq<Phase>)
    requires forall i :: 0 <= i < |phases| ==> phases[i] == Idle
    ensures Unstarted(phases) == 0
  {
    if phases != [] {
      NoneUnstarted(phases[..|phases| - 1]);
    }
  }

  /** Starts are paid for by claims, and every claim after the first by a retryable record:
      while the stored status is a stop, one claim more than the records may be out. */
  ghost predicate Paid(id: string, w: World) {
    && w.starts + Unstarted(w.phases) <= |w.claims|
    && Numbered(w.disk, id, w.claims)
    && |w.claims| <= w.retries + 1
    && (MentionsTask(w.disk, id) && !(Status(w.disk, id).Some? && Status(w.disk, id).value in STOPS) ==>
          |w.claims| <= w.retries)
  }

  /** Redacting a stored task keeps a stop status a stop. */
  lemma {:induction false} WriteStatus(redact: Redactor, disk: Disk, op: Op, id: string)
    requires FixesStops(redact) && Decide(redact, disk, op).Write?
    ensures MentionsTask(Write(redact, disk, op), id) <==> MentionsTask(disk, id) || op.id == id
    ensures op.id == id && op.Begin? ==> Status(Write(redact, disk, op), id) == Some(RUNNING)
    ensures op.id == id && op.Record? ==> Status(Write(redact, disk, op), id) == Some(redact(op.record.status))
    ensures op.id != id && MentionsTask(disk, id) ==>
              Status(Write(redact, disk, op), id) == RedactText(redact, Status(disk, id))
  {}

  lemma {:induction false} LedgerMoveKeeps(redact: Redactor, id: string, w: World, op: Op, retry: bool)
    requires FixesStops(redact) && Paid(id, w)
    requires op.id == id ==> op.Record?
    requires retry <==> op.id == id && Retryable(redact, op.record.status)
    ensures Paid(id, w.(disk := Write(redact, w.disk, op), retries := w.retries + if retry then 1 else 0))
  {
    StepNumbered(redact, w.disk, op, id, w.claims);
    if Decide(redact, w.disk, op).Write? {
      WriteStatus(redact, w.disk, op, id);
    }
  }

  lemma {:induction false} ClaimMoveKeeps(redact: Redactor, id: string, w: World, p: nat, args: BeginArgs)
    requires FixesStops(redact) && Paid(id, w) && p < |w.phases| && w.phases[p] == Idle
    ensures Paid(id, NextOf(redact, id, w, p, Claim(args)))
  {
    if Decide(redact, w.disk, Begin(id, args)).Write? {
      StepNumbered(redact, w.disk, Begin(id, args), id, w.claims);
      WriteStatus(redact, w.disk, Begin(id, args), id);
      ClaimGrantedIff(if w.disk.Holds? then w.disk.tasks else map[], id, args);
      UnstartedUpdate(w.phases, p, Pending(args));
    }
  }

  /** Moving a process on without a new claim pays for nothing new. */
  lemma {:induction false} PhaseMoveKeeps(id: string, w: World, p: nat, x: Phase, started: bool)
    requires Paid(id, w) && p < |w.phases| && !x.Pending?
    requires started ==> w.phases[p].Pending?
    ensures Paid(id, w.(phases := w.phases[p := x], starts := w.starts + if started then 1 else 0))
  {
    UnstartedUpdate(w.phases, p, x);
  }

  lemma {:induction false} MoveKeeps(redact: Redactor, id: string, w: World, m: Move)
    requires FixesStops(redact) && Paid(id, w)
    ensures Paid(id, Next(redact, id, w, m))
  {
    match m
    case PlainRecord(record) => LedgerMoveKeeps(redact, id, w, Record(id, record), Retryable(redact, record.status));
    case Elsewhere(op) => if op.id != id { LedgerMoveKeeps(redact, id, w, op, false); }
    case Do(p, act) => if p < |w.phases| { ActKeeps(redact, id, w, p, act); }
  }

  lemma {:induction false} ActKeeps(redact: Redactor, id: string, w: World, p: nat, act: Act)
    requires FixesStops(redact) && Paid(id, w) && p < |w.phases|
    ensures Paid(id, NextOf(redact, id, w, p, act))
  {
    match act
    case Claim(args) => if w.phases[p] == Idle { ClaimMoveKeeps(redact, id, w, p, args); }
    case StartProvider => if w.phases[p].Pending? { PhaseMoveKeeps(id, w, p, Ran(w.phases[p].args), true); }
    case Report(attempt) =>
      if w.phases[p].Ran? {
        var args := w.phases[p].args;
        if FinalStatus(args, attempt) != UNKNOWN {
          LedgerMoveKeeps(redact, id, w, Record(id, Note(id, args, FinalStatus(args, attempt), attempt)), false);
        }
      }
    case Abort =>
      if w.phases[p].Pending? || w.phases[p].Ran? { AbortKeeps(redact, id, w, p, w.phases[p].args); }
    case Leave => PhaseMoveKeeps(id, w, p, Idle, false);
    case Crash => PhaseMoveKeeps(id, w, p, Crashed, false);
  }

  lemma {:induction false} AbortKeeps(redact: Redactor, id: string, w: World, p: nat, args: BeginArgs)
    requires FixesStops(redact) && Paid(id, w) && p < |w.phases|
    ensures Paid(id, w.(disk := Write(redact, w.disk, Record(id, StopRecord(args))), phases := w.phases[p := Idle]))
  {
    LedgerMoveKeeps(redact, id, w, Record(id, StopRecord(args)), false);
    PhaseMoveKeeps(id, w.(disk := Write(redact, w.disk, Record(id, StopRecord(args)))), p, Idle, false);
  }

  /** Over any interleaving of dispatches and records on one task, with crashes anywhere:
      the provider is started at most once per granted claim, at most limit+1 times, and at
      most once more than there were records with a retryable status. */
  lemma {:induction false} StartsAreBounded(redact: Redactor, id: string, disk: Disk, n: nat, moves: seq<Move>)
    requires FixesStops(redact) && !MentionsTask(disk, id)
    ensures var w := Play(redact, id, Begun(disk, n), moves);
            && Paid(id, w)
            && w.starts <= |w.claims|
            && w.starts <= 1 + w.retries
            && (w.claims != [] ==> w.starts <= w.claims[0].limit + 1)
            && (w.claims == [] ==> w.starts == 0)
  {
    if moves == [] {
      NoneUnstarted(Begun(disk, n).phases);
    } else {
      StartsAreBounded(redact, id, disk, n, moves[..|moves| - 1]);
      MoveKeeps(redact, id, Play(redact, id, Begun(disk, n), moves[..|moves| - 1]), Last(moves));
    }
    var w := Play(redact, id, Begun(disk, n), moves);
    if w.claims != [] {
      assert Last(w.claims).index == |w.claims| - 1;
    }
  }

  /** Dispatches alone start the provider at most once, whatever the limit. */
  lemma {:induction false} DispatchAloneStartsOnce(redact: Redactor, id: string, disk: Disk, n: nat, moves: seq<Move>)
    requires FixesStops(redact) && !MentionsTask(disk, id)
    requires forall i :: 0 <= i < |moves| ==> !moves[i].PlainRecord?
    ensures var w := Play(redact, id, Begun(disk, n), moves);
            w.retries == 0 && w.starts <= 1
  {
    StartsAreBounded(redact, id, disk, n, moves);
    NoRetries(redact, id, disk, n, moves);
  }

  lemma {:induction false} NoRetries(redact: Redactor, id: string, disk: Disk, n: nat, moves: seq<Move>)
    requires forall i :: 0 <= i < |moves| ==> !moves[i].PlainRecord?
    ensures Play(redact, id, Begun(disk, n), moves).retries == 0
  {
    if moves != [] {
      NoRetries(redact, id, disk, n, moves[..|moves| - 1]);
      assert !Last(moves).PlainRecord?;
    }
  }
}
