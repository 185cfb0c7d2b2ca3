/** Live step control (packages/executors/src/live-step-control.ts).  `updateEffort` is
    split by its one await: `BeginUpdate` runs up to the RPC, `CompleteUpdate` from its
    reply to the end, and any number of calls may overlap. */
module LiveControl {
  import opened Common

  datatype Reply = Applied | TargetUnavailable | Unrecognized | TransportError

  datatype ReceiptStatus = IsApplied | IsUnavailable | IsUnknown

  datatype Receipt = Receipt(effort: string, status: ReceiptStatus)

  datatype Capabilities = Capabilities(qualified: bool, efforts: seq<string>)

  datatype Refusal =
    | BlankId | IdReused | NotQualified | EffortNotAdvertised | MustReconcile | MustSerialize | BudgetExhausted

  datatype Begun = Replayed(receipt: Receipt) | Rejected(why: Refusal) | RpcSent

  const BUDGET := 64

  datatype Control = Control(receipts: map<string, Receipt>, busy: bool, quarantined: bool, closed: bool)

  const NEW := Control(map[], false, false, false)

  predicate Blank(s: string) {
    forall i :: 0 <= i < |s| ==> TrimmedUnit(s[i] as int)
  }

  function Begin(caps: Capabilities, c: Control, id: string, effort: string): Begun {
    if Blank(id) then Rejected(BlankId)
    else if id in c.receipts then
      if c.receipts[id].effort != effort then Rejected(IdReused) else Replayed(c.receipts[id])
    else if !caps.qualified then Rejected(NotQualified)
    else if effort !in caps.efforts then Rejected(EffortNotAdvertised)
    else if c.closed || c.quarantined then Rejected(MustReconcile)
    else if c.busy then Rejected(MustSerialize)
    else if |c.receipts| >= BUDGET then Rejected(BudgetExhausted)
    else RpcSent
  }

  function StatusOf(reply: Reply): ReceiptStatus {
    match reply case Applied => IsApplied case TargetUnavailable => IsUnavailable case _ => IsUnknown
  }

  function Complete(c: Control, id: string, effort: string, reply: Reply): Control {
    var status := StatusOf(reply);
    Control(c.receipts[id := Receipt(effort, status)], false, status == IsUnknown, status == IsUnavailable)
  }

  class CodexLiveStepControl {
    const capabilities: Capabilities
    var receipts: map<string, Receipt>
    var busy: bool
    var quarantined: bool
    var closed: bool

    constructor (capabilities: Capabilities)
      ensures this.capabilities == capabilities && State() == NEW
    {
      this.capabilities := capabilities;
      receipts, busy, quarantined, closed := map[], false, false, false;
    }

    function State(): Control
      reads this
    {
      Control(receipts, busy, quarantined, closed)
    }

    method BeginUpdate(id: string, effort: string) returns (r: Begun)
      modifies this`busy
      ensures r == Begin(capabilities, old(State()), id, effort)
      ensures State() == if r == RpcSent then old(State()).(busy := true) else old(State())
    {
      if Blank(id) {
        return Rejected(BlankId);
      }
      if id in receipts {
        var previous := receipts[id];
        if previous.effort != effort {
          return Rejected(IdReused);
        }
        return Replayed(previous);
      }
      if !capabilities.qualified {
        return Rejected(NotQualified);
      }
      if effort !in capabilities.efforts {
        return Rejected(EffortNotAdvertised);
      }
      if closed || quarantined {
        return Rejected(MustReconcile);
      }
      if busy {
        return Rejected(MustSerialize);
      }
      if |receipts| >= BUDGET {
        return Rejected(BudgetExhausted);
      }
      busy := true;
      r := RpcSent;
    }

    method CompleteUpdate(id: string, effort: string, reply: Reply) returns (receipt: Receipt)
      modifies this
      ensures State() == Complete(old(State()), id, effort, reply)
      ensures receipt == Receipt(effort, StatusOf(reply))
    {
      var status := IsUnknown;
      if reply == Applied {
        status := IsApplied;
      } else if reply == TargetUnavailable {
        status := IsUnavailable;
      }
      busy := false;
      quarantined := status == IsUnknown;
      closed := status == IsUnavailable;
      receipt := Receipt(effort, status);
      receipts := receipts[id := receipt];
    }
  }

  // ------------------------------------------------- overlapping calls, as a run

  datatype Call = Call(id: string, effort: string)

  datatype Event = Start(call: Call) | Answer(index: nat, reply: Reply)

  datatype Answered = Answered(call: Call, reply: Reply)

  /** `sent` logs every RPC, `open` are those without a reply, `done` the answered ones. */
  datatype World = World(control: Control, sent: seq<Call>, open: seq<Call>, done: seq<Answered>)

  /** An answer may pick any outstanding RPC. */
  function Next(caps: Capabilities, w: World, e: Event): World {
    match e
    case Start(call) =>
      if Begin(caps, w.control, call.id, call.effort) == RpcSent
      then w.(control := w.control.(busy := true), sent := w.sent + [call], open := w.open + [call])
      else w
    case Answer(i, reply) =>
      if i < |w.open|
      then World(Complete(w.control, w.open[i].id, w.open[i].effort, reply), w.sent,
                 w.open[..i] + w.open[i + 1..], w.done + [Answered(w.open[i], reply)])
      else w
  }

  function Play(caps: Capabilities, w: World, events: seq<Event>): World {
    if events == [] then w else Next(caps, Play(caps, w, events[..|events| - 1]), Last(events))
  }

  const BEGUN := World(NEW, [], [], [])

  function Calls(done: seq<Answered>): (r: seq<Call>)
    ensures |r| == |done| && forall i :: 0 <= i < |r| ==> r[i] == done[i].call
  {
    seq(|done|, i requires 0 <= i < |done| => done[i].call)
  }

  /** The receipts that the answered calls leave. */
  function Receipts(done: seq<Answered>): map<string, Receipt> {
    if done == [] then map[]
    else Receipts(done[..|done| - 1])[Last(done).call.id := Receipt(Last(done).call.effort, StatusOf(Last(done).reply))]
  }

  lemma {:induction false} ReceiptIds(done: seq<Answered>, id: string)
    ensures id in Receipts(done) <==> exists i :: 0 <= i < |done| && done[i].call.id == id
  {
    if done != [] {
      ReceiptIds(done[..|done| - 1], id);
      assert done == done[..|done| - 1] + [Last(done)];
      if id in Receipts(done) && id != Last(done).call.id {
        var i :| 0 <= i < |done| - 1 && done[..|done| - 1][i].call.id == id;
        assert done[i].call.id == id;
      }
      if i :| 0 <= i < |done| - 1 && done[i].call.id == id {
        assert done[..|done| - 1][i].call.id == id;
      }
    }
  }

  ghost predicate DistinctIds(calls: seq<Call>) {
    forall i, j :: 0 <= i < j < |calls| ==> calls[i].id != calls[j].id
  }

  /** A reply after which the execution has to be reconciled. */
  predicate Halted(w: World) {
    w.done != [] && Last(w.done).reply != Applied
  }

  /** At most one RPC is outstanding; every RPC sent is that one or has its receipt. */
  ghost predicate Accounted(w: World) {
    && |w.open| <= 1
    && (w.control.busy <==> |w.open| == 1)
    && w.sent == Calls(w.done) + w.open
    && DistinctIds(w.sent)
    && w.control.receipts == Receipts(w.done)
    && |w.control.receipts| == |w.done|
    && |w.sent| <= BUDGET
  }

  /** Only the latest reply can be one that halts the control, and then nothing is open. */
  ghost predicate HaltsLast(w: World) {
    && (forall i :: 0 <= i < |w.done| - 1 ==> w.done[i].reply == Applied)
    && (w.control.quarantined || w.control.closed <==> Halted(w))
    && (Halted(w) ==> w.open == [])
  }

  lemma {:induction false} StartKeeps(caps: Capabilities, w: World, call: Call)
    requires Accounted(w) && HaltsLast(w) && Begin(caps, w.control, call.id, call.effort) == RpcSent
    ensures var w' := Next(caps, w, Start(call)); Accounted(w') && HaltsLast(w')
  {
    assert w.open == [];
    assert w.sent == Calls(w.done);
    forall i | 0 <= i < |w.sent| ensures w.sent[i].id != call.id {
      ReceiptIds(w.done, w.done[i].call.id);
    }
  }

  lemma {:induction false} OpenHasNoReceipt(w: World)
    requires Accounted(w) && |w.open| == 1
    ensures w.open[0].id !in w.control.receipts
  {
    assert w.sent[|w.done|] == w.open[0];
    ReceiptIds(w.done, w.open[0].id);
    forall i | 0 <= i < |w.done| ensures w.done[i].call.id != w.open[0].id {
      assert w.sent[i] == w.done[i].call;
    }
  }

  lemma {:induction false} DoneSnoc(done: seq<Answered>, x: Answered)
    ensures Calls(done + [x]) == Calls(done) + [x.call]
    ensures Receipts(done + [x]) == Receipts(done)[x.call.id := Receipt(x.call.effort, StatusOf(x.reply))]
  {
    assert (done + [x])[..|done|] == done;
  }

  lemma {:induction false} AnswerNext(caps: Capabilities, w: World, call: Call, reply: Reply)
    requires w.open == [call]
    ensures Next(caps, w, Answer(0, reply))
         == World(Complete(w.control, call.id, call.effort, reply), w.sent, [], w.done + [Answered(call, reply)])
  {
    assert w.open[..0] + w.open[1..] == [];
  }

  lemma {:induction false} AnswerAccounted(caps: Capabilities, w: World, reply: Reply)
    requires Accounted(w) && |w.open| == 1
    ensures Accounted(Next(caps, w, Answer(0, reply)))
  {
    var call := w.open[0];
    assert w.open == [call];
    OpenHasNoReceipt(w);
    AnswerNext(caps, w, call, reply);
    DoneSnoc(w.done, Answered(call, reply));
    SentStays(Calls(w.done), call, w.sent);
    NewKeySize(w.control.receipts, call.id, Receipt(call.effort, StatusOf(reply)));
  }

  lemma {:induction false} SentStays(answered: seq<Call>, call: Call, sent: seq<Call>)
    requires sent == answered + [call]
    ensures sent == answered + [call] + []
  {}

  lemma {:induction false} NewKeySize(receipts: map<string, Receipt>, id: string, receipt: Receipt)
    requires id !in receipts
    ensures |receipts[id := receipt]| == |receipts| + 1
  {}

  lemma {:induction false} AnswerHalts(caps: Capabilities, w: World, reply: Reply)
    requires HaltsLast(w) && |w.open| == 1
    ensures HaltsLast(Next(caps, w, Answer(0, reply)))
  {
    var w' := Next(caps, w, Answer(0, reply));
    assert w'.open == [];
    assert Last(w'.done).reply == reply;
    forall i | 0 <= i < |w'.done| - 1 ensures w'.done[i].reply == Applied {
      assert w'.done[i] == w.done[i];
    }
  }

  lemma {:induction false} NextKeeps(caps: Capabilities, w: World, e: Event)
    requires Accounted(w) && HaltsLast(w)
    ensures var w' := Next(caps, w, e); Accounted(w') && HaltsLast(w')
  {
    match e
    case Start(call) =>
      if Begin(caps, w.control, call.id, call.effort) == RpcSent {
        StartKeeps(caps, w, call);
      }
    case Answer(i, reply) =>
      if i < |w.open| {
        assert i == 0;
        AnswerAccounted(caps, w, reply);
        AnswerHalts(caps, w, reply);
      }
  }

  /** Under every interleaving: at most one RPC is outstanding, each decision id is sent at
      most once, at most 64 RPCs are sent in total, and the receipts are exactly the replies
      that the sent calls got. */
  lemma {:induction false} ControlIsSafe(caps: Capabilities, events: seq<Event>)
    ensures var w := Play(caps, BEGUN, events); Accounted(w) && HaltsLast(w)
  {
    if events != [] {
      ControlIsSafe(caps, events[..|events| - 1]);
      NextKeeps(caps, Play(caps, BEGUN, events[..|events| - 1]), Last(events));
    }
  }

  /** Stored receipts never change, and once a reply was `unknown` or `targetUnavailable` no
      RPC is ever sent again, although each completion assigns both flags afresh. */
  lemma {:induction false} NoRpcAfterHalt(caps: Capabilities, events: seq<Event>, more: seq<Event>)
    ensures var w, w' := Play(caps, BEGUN, events), Play(caps, BEGUN, events + more);
            && (forall id :: id in w.control.receipts ==>
                  id in w'.control.receipts && w'.control.receipts[id] == w.control.receipts[id])
            && (Halted(w) ==> w' == w)
  {
    if more == [] {
      assert events + more == events;
    } else {
      var front := more[..|more| - 1];
      assert (events + more)[..|events + more| - 1] == events + front;
      NoRpcAfterHalt(caps, events, front);
      ControlIsSafe(caps, events + front);
      StepPreserves(caps, Play(caps, BEGUN, events + front), Last(more));
    }
  }

  lemma {:induction false} StepPreserves(caps: Capabilities, w: World, e: Event)
    requires Accounted(w) && HaltsLast(w)
    ensures var w' := Next(caps, w, e);
            && (forall id :: id in w.control.receipts ==>
                  id in w'.control.receipts && w'.control.receipts[id] == w.control.receipts[id])
            && (Halted(w) ==> w' == w)
  {
    if e.Answer? && e.index < |w.open| {
      OpenHasNoReceipt(w);
    }
  }

  // ------------------------------------------------- what a run sends and answers

  predicate Used(w: World, id: string) {
    exists i :: 0 <= i < |w.done| && w.done[i].call.id == id
  }

  /** Something is left after trimming. */
  predicate HasText(id: string) {
    exists i :: 0 <= i < |id| && !TrimmedUnit(id[i] as int)
  }

  /** A call that names its decision, asks for something the qualified executor advertises, is
      new, and finds nothing outstanding, nothing to reconcile and budget left. */
  predicate MaySend(caps: Capabilities, w: World, call: Call) {
    && HasText(call.id) && caps.qualified && call.effort in caps.efforts
    && w.open == [] && |w.sent| < 64 && !Used(w, call.id)
    && forall i :: 0 <= i < |w.done| ==> w.done[i].reply == Applied
  }

  /** Why a call is refused, in terms of what the run has sent and got back. */
  predicate Reason(caps: Capabilities, w: World, call: Call, why: Refusal) {
    match why
    case BlankId => !HasText(call.id)
    case IdReused => Used(w, call.id)
    case NotQualified => !caps.qualified
    case EffortNotAdvertised => call.effort !in caps.efforts
    case MustReconcile => exists i :: 0 <= i < |w.done| && w.done[i].reply != Applied
    case MustSerialize => |w.open| == 1
    case BudgetExhausted => |w.sent| >= 64
  }

  /** The receipt of an answered call says which of the three things happened. */
  predicate Certifies(receipt: Receipt, a: Answered) {
    && receipt.effort == a.call.effort
    && (receipt.status == IsApplied <==> a.reply == Applied)
    && (receipt.status == IsUnavailable <==> a.reply == TargetUnavailable)
    && (receipt.status == IsUnknown <==> a.reply == Unrecognized || a.reply == TransportError)
  }

  lemma {:induction false} ReceiptsCertify(done: seq<Answered>, i: nat)
    requires DistinctIds(Calls(done)) && i < |done|
    ensures var id := done[i].call.id; id in Receipts(done) && Certifies(Receipts(done)[id], done[i])
  {
    var front := done[..|done| - 1];
    assert Calls(done)[|done| - 1] == Last(done).call && Calls(done)[i] == done[i].call;
    if i < |front| {
      assert Calls(front) == Calls(done)[..|front|];
      ReceiptsCertify(front, i);
      assert done[i].call.id != Last(done).call.id;
    }
  }

  lemma {:induction false} DoneIdsAreDistinct(w: World)
    requires Accounted(w)
    ensures DistinctIds(Calls(w.done))
  {
    assert Calls(w.done) == w.sent[..|w.done|];
  }

  /** After any run: a call is sent exactly if it may be; a repeated decision is answered with
      the receipt of its first call, or refused if it asks for another effort; and every other
      refusal has the reason it gives. */
  lemma {:induction false} BeginMeans(caps: Capabilities, events: seq<Event>, call: Call)
    ensures var w := Play(caps, BEGUN, events);
            var begun := Begin(caps, w.control, call.id, call.effort);
            && (begun == RpcSent <==> MaySend(caps, w, call))
            && (begun.Replayed? ==>
                  exists i :: 0 <= i < |w.done| && w.done[i].call == call && Certifies(begun.receipt, w.done[i]))
            && (begun.Rejected? ==> Reason(caps, w, call, begun.why))
            && (forall i :: 0 <= i < |w.done| && w.done[i].call == call && HasText(call.id) ==> begun.Replayed?)
  {
    var w := Play(caps, BEGUN, events);
    ControlIsSafe(caps, events);
    DoneIdsAreDistinct(w);
    ReceiptIds(w.done, call.id);
    HaltedSomewhere(w);
    forall i | 0 <= i < |w.done|
      ensures w.done[i].call.id in w.control.receipts
      ensures Certifies(w.control.receipts[w.done[i].call.id], w.done[i])
    {
      ReceiptsCertify(w.done, i);
    }
  }

  lemma {:induction false} HaltedSomewhere(w: World)
    requires HaltsLast(w)
    ensures Halted(w) <==> exists i :: 0 <= i < |w.done| && w.done[i].reply != Applied
  {
    if Halted(w) {
      assert w.done[|w.done| - 1].reply != Applied;
    }
  }

  /** Every RPC that a run sends names its decision and asks a qualified executor for an effort
      that it advertises; and every receipt certifies the reply that its call got. */
  lemma {:induction false} SentIsAdvertised(caps: Capabilities, events: seq<Event>)
    ensures var w := Play(caps, BEGUN, events);
            && (forall c :: c in w.sent ==> HasText(c.id) && caps.qualified && c.effort in caps.efforts)
            && (forall i :: 0 <= i < |w.done| ==>
                  var id := w.done[i].call.id;
                  id in w.control.receipts && Certifies(w.control.receipts[id], w.done[i]))
  {
    if events != [] {
      SentIsAdvertised(caps, events[..|events| - 1]);
    }
    var w := Play(caps, BEGUN, events);
    ControlIsSafe(caps, events);
    DoneIdsAreDistinct(w);
    forall i | 0 <= i < |w.done|
      ensures w.done[i].call.id in w.control.receipts
      ensures Certifies(w.control.receipts[w.done[i].call.id], w.done[i])
    {
      ReceiptsCertify(w.done, i);
    }
  }
}
