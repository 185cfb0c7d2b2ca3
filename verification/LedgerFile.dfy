/** Many processes on one ledger file (src/durable_threads/ledger.py): each command
    creates the lock file, reads, decides, replaces the file and removes the lock, and
    may fail or crash between any two of these steps.  The file nevertheless behaves as
    an atomic task table. */
module LedgerFile {
  import opened Common
  import opened TaskLedger

  datatype Process =
    | Idle
    | Opened(op: Op)                     // created the lock file
    | Loaded(op: Op, snapshot: Disk)     // read the ledger
    | Ready(op: Op, tasks: Tasks, reply: Task)  // decided; the new file is written beside the old
    | Closing                            // done or failed; the lock file is still there
    | Dead(holding: bool)                // crashed, with or without the lock file

  /** What callers have been told, and what has reached the file, in order. */
  datatype Event = Committed(op: Op, reply: Task) | Rejected(op: Op, error: Error) | FoundLocked(op: Op)

  datatype System = System(disk: Disk, lock: bool, procs: seq<Process>, log: seq<Event>)

  datatype Action =
    | TryLock(p: nat, op: Op)
    | Load(p: nat)
    | Resolve(p: nat)
    | Replace(p: nat)
    | Fail(p: nat)
    | Unlink(p: nat)
    | Crash(p: nat)

  /** Holding the lock file, alive or dead. */
  predicate Holding(proc: Process) {
    match proc
    case Idle => false
    case Dead(holding) => holding
    case _ => true
  }

  function Put(s: System, p: nat, proc: Process): System
    requires p < |s.procs|
  {
    s.(procs := s.procs[p := proc])
  }

  /** One step; an action that is not enabled leaves the system as it is. */
  function Step(redact: Redactor, s: System, a: Action): (r: System)
    ensures |r.procs| == |s.procs|
  {
    if a.p >= |s.procs| then s
    else
      match (a, s.procs[a.p])
      case (TryLock(p, op), Idle) =>
        if s.lock then s.(log := s.log + [FoundLocked(op)])
        else Put(s, p, Opened(op)).(lock := true)
      case (Load(p), Opened(op)) => Put(s, p, Loaded(op, s.disk))
      case (Resolve(p), Loaded(op, snapshot)) =>
        (match Decide(redact, snapshot, op)
         case Refuse(error) => Put(s, p, Closing).(log := s.log + [Rejected(op, error)])
         case Write(tasks, reply) => Put(s, p, Ready(op, tasks, reply)))
      case (Replace(p), Ready(op, tasks, reply)) =>
        Put(s, p, Closing).(disk := Holds(tasks), log := s.log + [Committed(op, reply)])
      case (Fail(p), Opened(_)) => Put(s, p, Closing)
      case (Fail(p), Loaded(_, _)) => Put(s, p, Closing)
      case (Fail(p), Ready(_, _, _)) => Put(s, p, Closing)
      case (Unlink(p), Closing) => Put(s, p, Idle).(lock := false)
      case (Crash(p), proc) => Put(s, p, Dead(Holding(proc)))
      case _ => s
  }

  function Run(redact: Redactor, s: System, actions: seq<Action>): (r: System)
    ensures |r.procs| == |s.procs|
  {
    if actions == [] then s else Step(redact, Run(redact, s, actions[..|actions| - 1]), Last(actions))
  }

  function Start(disk: Disk, n: nat): (s: System)
    ensures |s.procs| == n && forall i :: 0 <= i < n ==> s.procs[i] == Idle
  {
    System(disk, false, seq(n, _ => Idle), [])
  }

  // --------------------------------------------------------- the atomic meaning

  /** The log explains the file: each event is what the atomic table would have done at its
      turn.  Commits are granted and write, rejections are refused for that very reason. */
  ghost predicate Explains(redact: Redactor, initial: Disk, log: seq<Event>, disk: Disk)
    decreases |log|
  {
    if log == [] then disk == initial
    else
      var front := log[..|log| - 1];
      match Last(log)
      case Committed(op, reply) =>
        exists before :: Explains(redact, initial, front, before)
                         && Decide(redact, before, op).Write?
                         && disk == Holds(Decide(redact, before, op).tasks)
                         && reply == Decide(redact, before, op).reply
      case Rejected(op, error) =>
        Explains(redact, initial, front, disk) && Decide(redact, disk, op) == Refuse(error)
      case FoundLocked(_) => Explains(redact, initial, front, disk)
  }

  /** At most one process holds the lock file, and what it has seen is still current. */
  ghost predicate Exclusive(redact: Redactor, s: System) {
    && (forall p :: 0 <= p < |s.procs| && Holding(s.procs[p]) ==> s.lock)
    && (forall p, q :: 0 <= p < |s.procs| && 0 <= q < |s.procs| && Holding(s.procs[p]) && Holding(s.procs[q]) ==>
          p == q)
    && (forall p :: 0 <= p < |s.procs| && s.procs[p].Loaded? ==> s.procs[p].snapshot == s.disk)
    && (forall p :: 0 <= p < |s.procs| && s.procs[p].Ready? ==>
          Decide(redact, s.disk, s.procs[p].op) == Write(s.procs[p].tasks, s.procs[p].reply))
  }

  ghost predicate Inv(redact: Redactor, initial: Disk, s: System) {
    Exclusive(redact, s) && Explains(redact, initial, s.log, s.disk)
  }

  lemma {:induction false} LogGrows(redact: Redactor, initial: Disk, s: System, event: Event, disk: Disk)
    requires Explains(redact, initial, s.log, s.disk)
    requires match event
             case Committed(op, reply) =>
               exists tasks :: Decide(redact, s.disk, op) == Write(tasks, reply) && disk == Holds(tasks)
             case Rejected(op, error) => disk == s.disk && Decide(redact, s.disk, op) == Refuse(error)
             case FoundLocked(_) => disk == s.disk
    ensures Explains(redact, initial, s.log + [event], disk)
  {
    assert (s.log + [event])[..|s.log|] == s.log;
  }

  lemma {:induction false} StepIsExclusive(redact: Redactor, s: System, a: Action)
    requires Exclusive(redact, s)
    ensures Exclusive(redact, Step(redact, s, a))
  {}

  lemma {:induction false} StepExplains(redact: Redactor, initial: Disk, s: System, a: Action)
    requires Inv(redact, initial, s)
    ensures Explains(redact, initial, Step(redact, s, a).log, Step(redact, s, a).disk)
  {
    var s' := Step(redact, s, a);
    if |s'.log| > |s.log| {
      LogGrows(redact, initial, s, Last(s'.log), s'.disk);
    }
  }

  /** Every step keeps the lock exclusive and the log an explanation of the file. */
  lemma {:induction false} StepKeeps(redact: Redactor, initial: Disk, s: System, a: Action)
    requires Inv(redact, initial, s)
    ensures Inv(redact, initial, Step(redact, s, a))
  {
    StepIsExclusive(redact, s, a);
    StepExplains(redact, initial, s, a);
  }

  /** Linearizability: whatever the interleaving, failures and crashes, the file is what
      the logged commands produce one at a time in log order, no update is lost, refused
      commands change nothing, and every reply is the one the atomic table would give. */
  lemma {:induction false} Linearizable(redact: Redactor, disk: Disk, n: nat, actions: seq<Action>)
    ensures var s := Run(redact, Start(disk, n), actions);
            Inv(redact, disk, s) && Explains(redact, disk, s.log, s.disk)
  {
    if actions != [] {
      Linearizable(redact, disk, n, actions[..|actions| - 1]);
      StepKeeps(redact, disk, Run(redact, Start(disk, n), actions[..|actions| - 1]), Last(actions));
    }
  }

  /** The commands that reached the file. */
  function CommittedOps(log: seq<Event>): seq<Op> {
    if log == [] then []
    else CommittedOps(log[..|log| - 1]) + match Last(log) case Committed(op, _) => [op] case _ => []
  }

  /** In particular the file is the sequential replay of the committed commands. */
  lemma {:induction false} FileIsReplay(redact: Redactor, initial: Disk, log: seq<Event>, disk: Disk)
    requires Explains(redact, initial, log, disk)
    ensures disk == Replay(redact, initial, CommittedOps(log))
    decreases |log|
  {
    if log != [] {
      var front := log[..|log| - 1];
      match Last(log)
      case Committed(op, reply) =>
        var before :| Explains(redact, initial, front, before)
                      && Decide(redact, before, op).Write?
                      && disk == Holds(Decide(redact, before, op).tasks)
                      && reply == Decide(redact, before, op).reply;
        FileIsReplay(redact, initial, front, before);
        var ops := CommittedOps(log);
        assert ops[..|ops| - 1] == CommittedOps(front);
      case _ =>
        FileIsReplay(redact, initial, front, disk);
        assert CommittedOps(log) == CommittedOps(front);
    }
  }

  /** After a crash inside the lock the file never changes again and every later command
      finds the ledger locked. */
  lemma {:induction false} FrozenAfterCrash(redact: Redactor, initial: Disk, s: System, p: nat, actions: seq<Action>)
    requires Inv(redact, initial, s) && p < |s.procs| && s.procs[p] == Dead(true)
    ensures var s' := Run(redact, s, actions);
            && s'.disk == s.disk && s'.lock && s'.procs[p] == Dead(true) && Inv(redact, initial, s')
            && s.log <= s'.log && forall i :: |s.log| <= i < |s'.log| ==> s'.log[i].FoundLocked?
  {
    if actions != [] {
      var front := actions[..|actions| - 1];
      FrozenAfterCrash(redact, initial, s, p, front);
      var mid := Run(redact, s, front);
      StepKeeps(redact, initial, mid, Last(actions));
      FrozenStep(redact, initial, mid, p, Last(actions));
    }
  }

  lemma {:induction false} FrozenStep(redact: Redactor, initial: Disk, s: System, p: nat, a: Action)
    requires Inv(redact, initial, s) && p < |s.procs| && s.procs[p] == Dead(true)
    ensures var s' := Step(redact, s, a);
            && s'.disk == s.disk && s'.lock && s'.procs[p] == Dead(true)
            && (s'.log == s.log || (exists op :: s'.log == s.log + [FoundLocked(op)]))
  {}

  lemma {:induction false} RunJoin(redact: Redactor, s: System, first: seq<Action>, second: seq<Action>)
    ensures Run(redact, s, first + second) == Run(redact, Run(redact, s, first), second)
  {
    if second == [] {
      assert first + second == first;
    } else {
      assert (first + second)[..|first + second| - 1] == first + second[..|second| - 1];
      RunJoin(redact, s, first, second[..|second| - 1]);
    }
  }

  /** So a crash at any point between creating the lock file and removing it freezes the ledger
      as it then is. */
  lemma {:induction false} CrashFreezes(redact: Redactor, disk: Disk, n: nat, before: seq<Action>, p: nat,
                                        after: seq<Action>)
    requires p < n && Holding(Run(redact, Start(disk, n), before).procs[p])
    ensures var s, s' := Run(redact, Start(disk, n), before), Run(redact, Start(disk, n), before + [Crash(p)] + after);
            s'.disk == s.disk && s'.lock && CommittedOps(s'.log) == CommittedOps(s.log)
  {
    var s := Run(redact, Start(disk, n), before);
    var crashed := Step(redact, s, Crash(p));
    Linearizable(redact, disk, n, before);
    StepKeeps(redact, disk, s, Crash(p));
    RunSnoc(redact, Start(disk, n), before, Crash(p));
    RunJoin(redact, Start(disk, n), before + [Crash(p)], after);
    FrozenAfterCrash(redact, disk, crashed, p, after);
    NothingCommitted(crashed.log, Run(redact, crashed, after).log);
  }

  lemma {:induction false} NothingCommitted(log: seq<Event>, later: seq<Event>)
    requires log <= later && forall i :: |log| <= i < |later| ==> later[i].FoundLocked?
    ensures CommittedOps(later) == CommittedOps(log)
    decreases |later|
  {
    if |later| > |log| {
      NothingCommitted(log, later[..|later| - 1]);
    } else {
      assert later == log;
    }
  }

  /** A command that fails after it has read leaves the file alone and frees the lock. */
  lemma {:induction false} FailedCommand(redact: Redactor, s: System, p: nat, op: Op)
    requires p < |s.procs| && s.procs[p] == Idle && !s.lock
    ensures var s' := Run(redact, s, [TryLock(p, op), Load(p), Resolve(p), Fail(p), Unlink(p)]);
            s'.disk == s.disk && !s'.lock && s'.procs == s.procs && CommittedOps(s'.log) == CommittedOps(s.log)
  {
    RunFive(redact, s, TryLock(p, op), Load(p), Resolve(p), Fail(p), Unlink(p));
    var s2 := Step(redact, Step(redact, s, TryLock(p, op)), Load(p));
    assert s2 == Put(s, p, Opened(op)).(lock := true, procs := s.procs[p := Loaded(op, s.disk)]);
    var s3 := Step(redact, s2, Resolve(p));
    match Decide(redact, s.disk, op)
    case Refuse(error) =>
      assert s3.procs[p] == Closing;
      assert s3.log[..|s.log|] == s.log;
    case Write(tasks, reply) => assert s3.procs[p] == Ready(op, tasks, reply);
  }

  /** The other direction: while nobody holds the lock file, a command that runs undisturbed
      is granted or refused as the atomic table would, and leaves the lock free. */
  lemma {:induction false} UndisturbedCommand(redact: Redactor, s: System, p: nat, op: Op)
    requires p < |s.procs| && s.procs[p] == Idle && !s.lock
    ensures var s' := Run(redact, s, [TryLock(p, op), Load(p), Resolve(p), Replace(p), Unlink(p)]);
            && s'.disk == After(s.disk, Decide(redact, s.disk, op))
            && !s'.lock && s'.procs == s.procs
  {
    RunFive(redact, s, TryLock(p, op), Load(p), Resolve(p), Replace(p), Unlink(p));
    var s1 := Step(redact, s, TryLock(p, op));
    assert s1 == Put(s, p, Opened(op)).(lock := true);
    var s2 := Step(redact, s1, Load(p));
    assert s2 == Put(s1, p, Loaded(op, s.disk));
    FinishCommand(redact, s2, p, op);
  }

  /** From the snapshot to the end. */
  lemma {:induction false} FinishCommand(redact: Redactor, s: System, p: nat, op: Op)
    requires p < |s.procs| && s.procs[p] == Loaded(op, s.disk)
    ensures var s' := Step(redact, Step(redact, Step(redact, s, Resolve(p)), Replace(p)), Unlink(p));
            && s'.disk == After(s.disk, Decide(redact, s.disk, op))
            && !s'.lock && s'.procs == s.procs[p := Idle]
  {
    match Decide(redact, s.disk, op)
    case Refuse(error) =>
      assert Step(redact, s, Resolve(p)).procs[p] == Closing;
    case Write(tasks, reply) =>
      var s1 := Step(redact, s, Resolve(p));
      assert s1.procs[p] == Ready(op, tasks, reply);
      assert Step(redact, s1, Replace(p)).procs[p] == Closing;
  }

  lemma {:induction false} RunSnoc(redact: Redactor, s: System, actions: seq<Action>, a: Action)
    ensures Run(redact, s, actions + [a]) == Step(redact, Run(redact, s, actions), a)
  {
    assert (actions + [a])[..|actions|] == actions;
  }

  lemma {:induction false} RunFive(redact: Redactor, s: System, a: Action, b: Action, c: Action, d: Action, e: Action)
    ensures Run(redact, s, [a, b, c, d, e])
         == Step(redact, Step(redact, Step(redact, Step(redact, Step(redact, s, a), b), c), d), e)
  {
    RunSnoc(redact, s, [], a);
    RunSnoc(redact, s, [a], b);
    RunSnoc(redact, s, [a, b], c);
    RunSnoc(redact, s, [a, b, c], d);
    RunSnoc(redact, s, [a, b, c, d], e);
    assert [] + [a] == [a] && [a] + [b] == [a, b] && [a, b] + [c] == [a, b, c];
    assert [a, b, c] + [d] == [a, b, c, d] && [a, b, c, d] + [e] == [a, b, c, d, e];
  }
}
