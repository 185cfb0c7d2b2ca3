/** The local task ledger (src/durable_threads/ledger.py), one caller at a time.
    Redaction is an arbitrary text map that fixes the statuses that stop a retry;
    timestamps are not modelled. */
module TaskLedger {
  import opened Common

  type Redactor = string -> string

  const RUNNING := "running"
  const BLOCKED := "blocked"
  const UNKNOWN := "unknown"
  const COMPLETE := "complete"
  const UNVERIFIED := "unverified"

  /** A task in one of these states cannot be claimed. */
  const STOPS: set<string> := {RUNNING, BLOCKED, UNKNOWN, COMPLETE, UNVERIFIED}

  ghost predicate FixesStops(redact: Redactor) {
    forall s :: s in STOPS ==> redact(s) == s
  }

  /** A numeric field as found in the file. */
  datatype Field = Missing | Whole(n: int) | NotWhole

  datatype Task = Task(
    taskId: Option<string>, role: Option<string>, status: Option<string>, provider: Option<string>,
    threadId: Option<string>, result: Option<string>, usage: Option<map<string, int>>,
    followups: Field, maxFollowups: Field)

  const BLANK := Task(None, None, None, None, None, None, None, Missing, Missing)

  /** An entry of the task table: an object, possibly empty, or something else. */
  datatype Entry = NotAnObject | Object(task: Task)

  type Tasks = map<string, Entry>

  datatype Disk = Absent | Unreadable | Holds(tasks: Tasks)

  datatype BeginArgs = BeginArgs(role: string, provider: string, threadId: Option<string>, index: int, limit: int)

  datatype RecordArgs = RecordArgs(
    role: string, status: string, provider: Option<string>, threadId: Option<string>,
    result: Option<string>, usage: Option<map<string, int>>)

  datatype Error =
    | Locked
    | UnreadableFile
    | IndexOutOfRange
    | InvalidEntry
    | AlreadyRunning
    | OtherProvider
    | OtherSession
    | NoRecordedLimit
    | LimitChanged
    | InvalidFollowups
    | WrongIndex
    | Stopped

  datatype Reply = Refused(error: Error) | Stored(task: Task)

  function RedactText(redact: Redactor, o: Option<string>): Option<string> {
    match o case None => None case Some(s) => Some(redact(s))
  }

  function RedactTask(redact: Redactor, t: Task): Task {
    Task(RedactText(redact, t.taskId), RedactText(redact, t.role), RedactText(redact, t.status),
         RedactText(redact, t.provider), RedactText(redact, t.threadId), RedactText(redact, t.result),
         t.usage, t.followups, t.maxFollowups)
  }

  function RedactEntry(redact: Redactor, e: Entry): Entry {
    match e case NotAnObject => NotAnObject case Object(t) => Object(RedactTask(redact, t))
  }

  /** Saving redacts the whole file, not only the entry that changed. */
  function Redacted(redact: Redactor, tasks: Tasks): Tasks {
    map id | id in tasks :: RedactEntry(redact, tasks[id])
  }

  /** Python's truth of an optional text. */
  predicate Given(o: Option<string>) {
    o.Some? && o.value != ""
  }

  /** The task that a claim builds on: none, or a recorded object. */
  function Existing(tasks: Tasks, id: string): Task {
    if id in tasks && tasks[id].Object? then tasks[id].task else BLANK
  }

  /** The first check that refuses a claim. */
  function BeginError(tasks: Tasks, id: string, a: BeginArgs): Option<Error> {
    var t := Existing(tasks, id);
    if a.index < 0 || a.limit < 0 || a.index > a.limit then Some(IndexOutOfRange)
    else if id in tasks && t == BLANK then Some(InvalidEntry)
    else if t.status == Some(RUNNING) then Some(AlreadyRunning)
    else if Given(t.provider) && t.provider.value != a.provider then Some(OtherProvider)
    else if Given(t.threadId) && t.threadId != a.threadId then Some(OtherSession)
    else if id in tasks && (!t.maxFollowups.Whole? || t.maxFollowups.n < 0) then Some(NoRecordedLimit)
    else if id in tasks && t.maxFollowups.n != a.limit then Some(LimitChanged)
    else if id in tasks && (!t.followups.Whole? || t.followups.n < 0) then Some(InvalidFollowups)
    else if a.index != (if id in tasks then t.followups.n + 1 else 0) then Some(WrongIndex)
    else if t.status.Some? && t.status.value in STOPS then Some(Stopped)
    else None
  }

  function Claimed(t: Task, id: string, a: BeginArgs): Task {
    t.(taskId := Some(id), role := Some(a.role), provider := Some(a.provider), status := Some(RUNNING),
       followups := Whole(a.index), maxFollowups := Whole(a.limit),
       threadId := if Given(a.threadId) then a.threadId else t.threadId)
  }

  function Recorded(t: Task, id: string, a: RecordArgs): Task {
    t.(taskId := Some(id), role := Some(a.role), status := Some(a.status),
       provider := if Given(a.provider) then a.provider else t.provider,
       threadId := if Given(a.threadId) then a.threadId else t.threadId,
       result := if a.result.Some? then a.result else t.result,
       usage := if a.usage.Some? then a.usage else t.usage)
  }

  /** What a claim needs, as the caller sees it. */
  ghost predicate MayClaim(tasks: Tasks, id: string, a: BeginArgs) {
    && 0 <= a.index <= a.limit
    && (id !in tasks ==> a.index == 0)
    && (id in tasks ==>
          && tasks[id].Object? && tasks[id].task != BLANK
          && var t := tasks[id].task;
             && t.followups == Whole(a.index - 1) && a.index > 0 && t.maxFollowups == Whole(a.limit)
             && (t.status.Some? ==> t.status.value !in STOPS)
             && (Given(t.provider) ==> t.provider == Some(a.provider))
             && (Given(t.threadId) ==> t.threadId == a.threadId))
  }

  /** A claim is granted exactly to the next follow-up of a task that is neither running nor
      stopped, under its recorded limit, provider and session. */
  lemma {:induction false} ClaimGrantedIff(tasks: Tasks, id: string, a: BeginArgs)
    ensures BeginError(tasks, id, a) == None <==> MayClaim(tasks, id, a)
  {}

  // ------------------------------------------------------------ ledger commands

  datatype Op = Begin(id: string, begin: BeginArgs) | Record(id: string, record: RecordArgs)

  datatype Effect = Refuse(error: Error) | Write(tasks: Tasks, reply: Task)

  /** One command against the file it read. */
  function Decide(redact: Redactor, disk: Disk, op: Op): Effect {
    var tasks := match disk case Holds(tasks) => tasks case _ => map[];
    match op
    case Begin(id, a) =>
      if a.index < 0 || a.limit < 0 || a.index > a.limit then Refuse(IndexOutOfRange)
      else if disk.Unreadable? then Refuse(UnreadableFile)
      else
        (match BeginError(tasks, id, a)
         case Some(error) => Refuse(error)
         case None =>
           var task := Claimed(Existing(tasks, id), id, a);
           Write(Redacted(redact, tasks[id := Object(task)]), task))
    case Record(id, a) =>
      if disk.Unreadable? then Refuse(UnreadableFile)
      else
        var task := Recorded(Existing(tasks, id), id, a);
        Write(Redacted(redact, tasks[id := Object(task)]), RedactTask(redact, task))
  }

  function After(disk: Disk, effect: Effect): Disk {
    match effect case Refuse(_) => disk case Write(tasks, _) => Holds(tasks)
  }

  function ReplyOf(effect: Effect): Reply {
    match effect case Refuse(error) => Refused(error) case Write(_, reply) => Stored(reply)
  }

  class Ledger {
    const redact: Redactor
    var disk: Disk
    /** The lock file beside the ledger. */
    var lock: bool

    constructor (redact: Redactor, disk: Disk)
      ensures this.redact == redact && this.disk == disk && !lock
    {
      this.redact := redact;
      this.disk := disk;
      lock := false;
    }

    method Read() returns (tasks: Option<Tasks>)
      ensures tasks == match disk case Absent => Some(map[]) case Unreadable => None case Holds(t) => Some(t)
    {
      match disk {
        case Absent => tasks := Some(map[]);
        case Unreadable => tasks := None;
        case Holds(t) => tasks := Some(t);
      }
    }

    method Save(tasks: Tasks)
      modifies this`disk
      ensures disk == Holds(Redacted(redact, tasks))
    {
      disk := Holds(Redacted(redact, tasks));
    }

    /** Runs one command under the lock file; a lock that is already there refuses it. */
    method RecordTask(id: string, a: RecordArgs) returns (reply: Reply)
      modifies this
      ensures lock == old(lock)
      ensures old(lock) ==> reply == Refused(Locked) && disk == old(disk)
      ensures !old(lock) ==> var effect := Decide(redact, old(disk), Record(id, a));
                             disk == After(old(disk), effect) && reply == ReplyOf(effect)
    {
      if lock {
        return Refused(Locked);
      }
      lock := true;
      var read := Read();
      if read == None {
        lock := false;
        return Refused(UnreadableFile);
      }
      var tasks := read.value;
      var existing := if id in tasks && tasks[id].Object? then tasks[id].task else BLANK;
      var task := existing.(taskId := Some(id), role := Some(a.role), status := Some(a.status));
      if Given(a.provider) {
        task := task.(provider := a.provider);
      }
      if Given(a.threadId) {
        task := task.(threadId := a.threadId);
      }
      if a.result.Some? {
        task := task.(result := a.result);
      }
      if a.usage.Some? {
        task := task.(usage := a.usage);
      }
      tasks := tasks[id := Object(task)];
      Save(tasks);
      lock := false;
      reply := Stored(RedactTask(redact, task));
    }

    method BeginTask(id: string, a: BeginArgs) returns (reply: Reply)
      modifies this
      ensures lock == old(lock)
      ensures old(lock) ==> reply == Refused(Locked) && disk == old(disk)
      ensures !old(lock) ==> var effect := Decide(redact, old(disk), Begin(id, a));
                             disk == After(old(disk), effect) && reply == ReplyOf(effect)
    {
      if lock {
        return Refused(Locked);
      }
      lock := true;
      reply := ClaimLocked(id, a);
      lock := false;
    }

    /** The body of a claim, with the lock held. */
    method ClaimLocked(id: string, a: BeginArgs) returns (reply: Reply)
      modifies this`disk
      ensures var effect := Decide(redact, old(disk), Begin(id, a));
              disk == After(old(disk), effect) && reply == ReplyOf(effect)
    {
      if a.index < 0 || a.limit < 0 || a.index > a.limit {
        return Refused(IndexOutOfRange);
      }
      var read := Read();
      if read == None {
        return Refused(UnreadableFile);
      }
      var tasks := read.value;
      if id in tasks && (tasks[id] == NotAnObject || tasks[id].task == BLANK) {
        return Refused(InvalidEntry);
      }
      var existing := if id in tasks then tasks[id].task else BLANK;
      if existing.status == Some(RUNNING) {
        return Refused(AlreadyRunning);
      }
      if Given(existing.provider) && existing.provider.value != a.provider {
        return Refused(OtherProvider);
      }
      if Given(existing.threadId) && existing.threadId != a.threadId {
        return Refused(OtherSession);
      }
      if existing != BLANK {
        if !existing.maxFollowups.Whole? || existing.maxFollowups.n < 0 {
          return Refused(NoRecordedLimit);
        }
        if a.limit != existing.maxFollowups.n {
          return Refused(LimitChanged);
        }
      }
      var previous := if existing != BLANK then existing.followups else Whole(-1);
      if !previous.Whole? || previous.n < (if existing != BLANK then 0 else -1) {
        return Refused(InvalidFollowups);
      }
      if a.index != previous.n + 1 {
        return Refused(WrongIndex);
      }
      if existing.status.Some? && existing.status.value in {BLOCKED, UNKNOWN, COMPLETE, UNVERIFIED} {
        return Refused(Stopped);
      }
      var task := existing.(taskId := Some(id), role := Some(a.role), provider := Some(a.provider),
                            status := Some(RUNNING), followups := Whole(a.index), maxFollowups := Whole(a.limit));
      if Given(a.threadId) {
        task := task.(threadId := a.threadId);
      }
      tasks := tasks[id := Object(task)];
      Save(tasks);
      reply := Stored(task);
    }
  }

  /** What every save keeps, although it redacts the whole file: the entries, both counters,
      and a stop status, so that an entry that stops claims goes on stopping them. */
  lemma {:induction false} SaveKeepsStops(redact: Redactor, tasks: Tasks, id: string)
    requires FixesStops(redact)
    ensures var saved := Redacted(redact, tasks);
            && saved.Keys == tasks.Keys
            && (id in tasks && tasks[id].Object? ==>
                  var t, t' := tasks[id].task, saved[id].task;
                  && t'.followups == t.followups && t'.maxFollowups == t.maxFollowups
                  && (t.status.Some? && t.status.value in STOPS ==>
                        t'.status == t.status && forall a :: BeginError(saved, id, a).Some?))
  {
    var saved := Redacted(redact, tasks);
    if id in tasks && tasks[id].Object? {
      var t := tasks[id].task;
      if t.status.Some? && t.status.value in STOPS {
        assert saved[id].task.status == t.status;
        forall a ensures BeginError(saved, id, a).Some? {
          ClaimGrantedIff(saved, id, a);
        }
      }
    }
  }

  // ------------------------------------------------------------- what a command stores

  /** The tasks that a readable file holds. */
  function TasksOf(disk: Disk): Tasks {
    match disk case Holds(tasks) => tasks case _ => map[]
  }

  /** The stored text: the new one where one is given, the old one otherwise, redacted. */
  predicate Keeps(redact: Redactor, stored: Option<string>, given: bool, text: Option<string>, was: Option<string>) {
    match if given then text else was
    case None => stored == None
    case Some(s) => stored == Some(redact(s))
  }

  /** Every other entry stays, with its texts redacted once more and its numbers as they are. */
  ghost predicate OthersKept(redact: Redactor, before: Tasks, after: Tasks, id: string) {
    && after.Keys == before.Keys + {id}
    && forall k :: k in before && k != id ==>
         match before[k]
         case NotAnObject => after[k] == NotAnObject
         case Object(was) => after[k].Object? && SameButRedacted(redact, was, after[k].task)
  }

  predicate SameButRedacted(redact: Redactor, was: Task, now: Task) {
    && Keeps(redact, now.taskId, false, None, was.taskId) && Keeps(redact, now.role, false, None, was.role)
    && Keeps(redact, now.status, false, None, was.status) && Keeps(redact, now.provider, false, None, was.provider)
    && Keeps(redact, now.threadId, false, None, was.threadId) && Keeps(redact, now.result, false, None, was.result)
    && now.usage == was.usage && now.followups == was.followups && now.maxFollowups == was.maxFollowups
  }

  /** A record that can read the file stores the task's id, role and status and whatever of
      provider, session, result and usage it was given, keeps the rest of the entry and its two
      counters, redacts every text, answers with what it stored, and touches no other entry. */
  lemma {:induction false} RecordMeans(redact: Redactor, disk: Disk, id: string, a: RecordArgs)
    ensures var effect := Decide(redact, disk, Record(id, a));
            && (effect.Refuse? <==> disk.Unreadable?)
            && (effect.Refuse? ==> effect.error == UnreadableFile)
            && (effect.Write? ==>
                  var was, now := Existing(TasksOf(disk), id), effect.reply;
                  && OthersKept(redact, TasksOf(disk), effect.tasks, id)
                  && effect.tasks[id] == Object(now)
                  && now.taskId == Some(redact(id)) && now.role == Some(redact(a.role))
                  && now.status == Some(redact(a.status))
                  && Keeps(redact, now.provider, a.provider.Some? && a.provider != Some(""), a.provider, was.provider)
                  && Keeps(redact, now.threadId, a.threadId.Some? && a.threadId != Some(""), a.threadId, was.threadId)
                  && Keeps(redact, now.result, a.result.Some?, a.result, was.result)
                  && now.usage == (if a.usage.Some? then a.usage else was.usage)
                  && now.followups == was.followups && now.maxFollowups == was.maxFollowups)
  {}

  /** A granted claim stores a running task under the claim's role, provider, index and limit,
      and under its session if one is given; it keeps result and usage, redacts the file but not
      its answer, and touches no other entry. */
  lemma {:induction false} ClaimMeans(redact: Redactor, disk: Disk, id: string, a: BeginArgs)
    requires Decide(redact, disk, Begin(id, a)).Write?
    ensures var effect := Decide(redact, disk, Begin(id, a));
            var was, now := Existing(TasksOf(disk), id), effect.reply;
            && OthersKept(redact, TasksOf(disk), effect.tasks, id)
            && effect.tasks[id].Object? && SameButRedacted(redact, now, effect.tasks[id].task)
            && now.taskId == Some(id) && now.role == Some(a.role) && now.provider == Some(a.provider)
            && now.status == Some("running") && now.followups == Whole(a.index) && now.maxFollowups == Whole(a.limit)
            && now.threadId == (if a.threadId.Some? && a.threadId != Some("") then a.threadId else was.threadId)
            && now.result == was.result && now.usage == was.usage
  {}

  /** The obstacle that a refusal names. */
  predicate Obstacle(disk: Disk, id: string, a: BeginArgs, error: Error) {
    var tasks := TasksOf(disk);
    var t := Existing(tasks, id);
    match error
    case IndexOutOfRange => !(0 <= a.index <= a.limit)
    case UnreadableFile => disk.Unreadable?
    case InvalidEntry => id in tasks && (tasks[id].NotAnObject? || tasks[id].task == BLANK)
    case AlreadyRunning => t.status == Some("running")
    case OtherProvider => t.provider.Some? && t.provider.value !in {"", a.provider}
    case OtherSession => t.threadId.Some? && t.threadId.value != "" && a.threadId != t.threadId
    case NoRecordedLimit => id in tasks && (!t.maxFollowups.Whole? || t.maxFollowups.n < 0)
    case LimitChanged => id in tasks && t.maxFollowups.Whole? && t.maxFollowups.n != a.limit
    case InvalidFollowups => id in tasks && (!t.followups.Whole? || t.followups.n < 0)
    case WrongIndex => if id in tasks then t.followups != Whole(a.index - 1) else a.index != 0
    case Stopped => t.status.Some? && t.status.value in {"blocked", "unknown", "complete", "unverified"}
    case Locked => false
  }

  /** Every refused claim names an obstacle that is there, and leaves the file as it is; the
      range of the index is checked before the file is read, and a stop only when nothing else
      is in the way. */
  lemma {:induction false} RefusalMeans(redact: Redactor, disk: Disk, id: string, a: BeginArgs)
    requires Decide(redact, disk, Begin(id, a)).Refuse?
    ensures var error := Decide(redact, disk, Begin(id, a)).error;
            && Obstacle(disk, id, a, error)
            && After(disk, Refuse(error)) == disk
            && (Obstacle(disk, id, a, IndexOutOfRange) ==> error == IndexOutOfRange)
            && (error == Stopped ==> forall other :: Obstacle(disk, id, a, other) ==> other == Stopped)
  {
    assert RUNNING[0] == 'r' && BLOCKED[0] == 'b' && COMPLETE[0] == 'c' && UNKNOWN[0] == UNVERIFIED[0] == 'u';
  }

  // ---------------------------------------------------------------- a retry

  /** Text that two saves leave recognisable: unchanged, or empty and so not compared. */
  predicate Survives(redact: Redactor, s: string) {
    redact(redact(s)) in {s, ""}
  }

  /** After a granted claim and a record of status `s`, the same provider and session may
      claim the next follow-up exactly when the limit leaves one, the stored status is no
      stop, and redaction left the provider and the session id recognisable. */
  lemma {:induction false} RetryGrantedIff(redact: Redactor, disk: Disk, id: string, a: BeginArgs, role: string,
                                           s: string)
    requires redact("") == ""
    requires Decide(redact, disk, Begin(id, a)).Write?
    ensures var claimed := After(disk, Decide(redact, disk, Begin(id, a)));
            var record := Record(id, RecordArgs(role, s, None, None, None, None));
            var recorded := After(claimed, Decide(redact, claimed, record));
            Decide(redact, recorded, Begin(id, a.(index := a.index + 1))).Write?
            <==> (&& a.index < a.limit
                  && redact(s) !in STOPS
                  && Survives(redact, a.provider)
                  && (a.threadId.Some? ==> Survives(redact, a.threadId.value)))
  {
    var tasks := if disk.Holds? then disk.tasks else map[];
    ClaimGrantedIff(tasks, id, a);
    var claimed := After(disk, Decide(redact, disk, Begin(id, a)));
    var record := Record(id, RecordArgs(role, s, None, None, None, None));
    var recorded := After(claimed, Decide(redact, claimed, record));
    ClaimGrantedIff(recorded.tasks, id, a.(index := a.index + 1));
    var t := recorded.tasks[id].task;
    assert t.provider == Some(redact(redact(a.provider)));
    assert t.status == Some(redact(s)) && t.followups == Whole(a.index) && t.maxFollowups == Whole(a.limit);
  }

  // ------------------------------------------------------------- claim numbering

  /** Runs commands one after another. */
  function Replay(redact: Redactor, disk: Disk, ops: seq<Op>): Disk {
    if ops == [] then disk
    else
      var before := Replay(redact, disk, ops[..|ops| - 1]);
      After(before, Decide(redact, before, Last(ops)))
  }

  /** The successful claims of one task, in order. */
  function Claims(redact: Redactor, disk: Disk, ops: seq<Op>, id: string): seq<BeginArgs> {
    if ops == [] then []
    else
      var before := Replay(redact, disk, ops[..|ops| - 1]);
      var claims := Claims(redact, disk, ops[..|ops| - 1], id);
      if Last(ops).Begin? && Last(ops).id == id && Decide(redact, before, Last(ops)).Write?
      then claims + [Last(ops).begin] else claims
  }

  predicate MentionsTask(disk: Disk, id: string) {
    disk.Holds? && id in disk.tasks
  }

  /** What the file says about a task after its claims so far. */
  ghost predicate Numbered(disk: Disk, id: string, claims: seq<BeginArgs>) {
    && (!MentionsTask(disk, id) ==> claims == [])
    && (MentionsTask(disk, id) ==>
          && disk.tasks[id].Object?
          && disk.tasks[id].task.role.Some?
          && (claims == [] ==> disk.tasks[id].task.maxFollowups == Missing)
          && (claims != [] ==>
                && disk.tasks[id].task.maxFollowups == Whole(claims[0].limit)
                && disk.tasks[id].task.followups == Whole(|claims| - 1)))
    && (forall k :: 0 <= k < |claims| ==> claims[k].index == k <= claims[k].limit == claims[0].limit)
  }

  lemma {:induction false} StepNumbered(redact: Redactor, disk: Disk, op: Op, id: string, claims: seq<BeginArgs>)
    requires Numbered(disk, id, claims)
    ensures var effect := Decide(redact, disk, op);
            Numbered(After(disk, effect), id,
                     if op.Begin? && op.id == id && effect.Write? then claims + [op.begin] else claims)
  {}

  /** From a ledger without the task: the k-th successful claim carries follow-up index k-1,
      the limit is the first claim's, so there are at most limit+1 claims; a task that a
      plain record created first is never claimed. */
  lemma {:induction false} ClaimsAreNumbered(redact: Redactor, disk: Disk, ops: seq<Op>, id: string)
    requires !MentionsTask(disk, id)
    ensures var claims := Claims(redact, disk, ops, id);
            && Numbered(Replay(redact, disk, ops), id, claims)
            && (claims != [] ==> |claims| <= claims[0].limit + 1)
  {
    if ops != [] {
      ClaimsAreNumbered(redact, disk, ops[..|ops| - 1], id);
      StepNumbered(redact, Replay(redact, disk, ops[..|ops| - 1]), Last(ops), id,
                   Claims(redact, disk, ops[..|ops| - 1], id));
    }
    var claims := Claims(redact, disk, ops, id);
    if claims != [] {
      assert Last(claims).index == |claims| - 1;
    }
  }

  lemma {:induction false} RecordedFirstNeverClaimed(redact: Redactor, disk: Disk, ops: seq<Op>, id: string,
                                                     more: seq<Op>)
    requires !MentionsTask(disk, id)
    requires MentionsTask(Replay(redact, disk, ops), id) && Claims(redact, disk, ops, id) == []
    ensures Claims(redact, disk, ops + more, id) == []
  {
    if more == [] {
      assert ops + more == ops;
    } else {
      var front := more[..|more| - 1];
      assert (ops + more)[..|ops + more| - 1] == ops + front;
      RecordedFirstNeverClaimed(redact, disk, ops, id, front);
      StaysMentioned(redact, disk, ops, front, id);
      ClaimsAreNumbered(redact, disk, ops + front, id);
    }
  }

  lemma {:induction false} StaysMentioned(redact: Redactor, disk: Disk, ops: seq<Op>, more: seq<Op>, id: string)
    requires MentionsTask(Replay(redact, disk, ops), id)
    ensures MentionsTask(Replay(redact, disk, ops + more), id)
  {
    if more == [] {
      assert ops + more == ops;
    } else {
      var front := more[..|more| - 1];
      assert (ops + more)[..|ops + more| - 1] == ops + front;
      StaysMentioned(redact, disk, ops, front, id);
    }
  }

  // ------------------------------------------------------- who may go on with a task

  /** The entry names this provider and this session. */
  predicate BoundTo(disk: Disk, id: string, provider: string, session: string) {
    && MentionsTask(disk, id) && disk.tasks[id].Object?
    && disk.tasks[id].task.provider == Some(provider) && disk.tasks[id].task.threadId == Some(session)
  }

  /** A record that names another provider or session. */
  predicate Rebinds(op: Op, id: string, provider: string, session: string) {
    && op.Record? && op.id == id
    && ((op.record.provider.Some? && op.record.provider.value !in {"", provider})
        || (op.record.threadId.Some? && op.record.threadId.value !in {"", session}))
  }

  lemma {:induction false} StepStaysBound(redact: Redactor, disk: Disk, op: Op, id: string, provider: string,
                                          session: string)
    requires redact(provider) == provider != "" && redact(session) == session != ""
    requires BoundTo(disk, id, provider, session) && !Rebinds(op, id, provider, session)
    ensures var effect := Decide(redact, disk, op);
            && BoundTo(After(disk, effect), id, provider, session)
            && (op.Begin? && op.id == id && effect.Write? ==>
                  op.begin.provider == provider && op.begin.threadId == Some(session))
  {
    if op.Begin? && op.id == id {
      ClaimGrantedIff(disk.tasks, id, op.begin);
    }
  }

  /** Once a record names a provider and a session that redaction leaves alone, every later
      granted claim is that provider's in that session, until a record names another. */
  lemma {:induction false} RecordedSessionSticks(redact: Redactor, disk: Disk, id: string, a: RecordArgs,
                                                 provider: string, session: string, ops: seq<Op>)
    requires redact(provider) == provider != "" && redact(session) == session != ""
    requires a.provider == Some(provider) && a.threadId == Some(session) && !disk.Unreadable?
    requires forall i :: 0 <= i < |ops| ==> !Rebinds(ops[i], id, provider, session)
    ensures var recorded := After(disk, Decide(redact, disk, Record(id, a)));
            && BoundTo(Replay(redact, recorded, ops), id, provider, session)
            && forall c :: c in Claims(redact, recorded, ops, id) ==>
                 c.provider == provider && c.threadId == Some(session)
  {
    RecordMeans(redact, disk, id, a);
    var recorded := After(disk, Decide(redact, disk, Record(id, a)));
    if ops == [] {
      assert BoundTo(recorded, id, provider, session);
    } else {
      var front := ops[..|ops| - 1];
      RecordedSessionSticks(redact, disk, id, a, provider, session, front);
      StepStaysBound(redact, Replay(redact, recorded, front), Last(ops), id, provider, session);
    }
  }
}
