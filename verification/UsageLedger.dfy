/** The usage ledger (packages/policy/src/efficiency.ts): idempotent receipts keyed by a
    JSON string, and a summary that checks the number range only after adding up.
    Token additions go through an arbitrary rounding that is monotone and exact up to
    2^53; credits are exact reals. */
module UsageLedger {
  import opened Common
  import CanonicalJson

  type Text = CanonicalJson.Text

  /** Equality with a source literal. */
  predicate Is(t: Text, literal: string) {
    |t| == |literal| && forall i :: 0 <= i < |t| ==> t[i] == literal[i] as int
  }

  datatype Kind = Generation | Prewarm | Compaction

  datatype Tier = Default | Fast

  datatype Receipt = Receipt(
    executionId: Text, requestId: Text, provider: Text, model: Text, kind: Kind,
    input: int, cached: int, output: int, reasoning: int, tier: Tier)

  /** A JavaScript number: a whole one, or a fraction, an infinity or NaN. */
  datatype Number = Whole(n: int) | NotWhole

  /** What a caller hands over; `None` is a value that is not a string. */
  datatype Claim = Claim(
    executionId: Option<Text>, requestId: Option<Text>, provider: Option<Text>, model: Option<Text>,
    kind: Text, input: Number, cached: Number, output: Number, reasoning: Number, tier: Text)

  datatype Name = ExecutionId | RequestId | Provider | Model

  datatype Count = Input | Cached | Output | Reasoning

  datatype Error =
    | Missing(name: Name)
    | InvalidKind
    | UnknownTier
    | NotSafe(count: Count)
    | CachedExceedsInput
    | ReasoningExceedsOutput
    | Conflicting

  const MAX_SAFE := 0x1F_FFFF_FFFF_FFFF
  const TWO_53 := MAX_SAFE + 1

  predicate Blank(t: Text) {
    forall i :: 0 <= i < |t| ==> TrimmedUnit(t[i])
  }

  predicate Named(t: Option<Text>) {
    t.Some? && !Blank(t.value)
  }

  predicate Safe(n: int) {
    0 <= n <= MAX_SAFE
  }

  predicate SafeNumber(x: Number) {
    x.Whole? && Safe(x.n)
  }

  function KindOf(t: Text): Option<Kind> {
    if Is(t, "generation") then Some(Generation)
    else if Is(t, "prewarm") then Some(Prewarm)
    else if Is(t, "compaction") then Some(Compaction)
    else None
  }

  function TierOf(t: Text): Option<Tier> {
    if Is(t, "default") then Some(Default) else if Is(t, "fast") then Some(Fast) else None
  }

  datatype Checked = Bad(error: Error) | Good(receipt: Receipt)

  /** The first check that refuses a claim, or its receipt. */
  function Check(c: Claim): Checked {
    if !Named(c.executionId) then Bad(Missing(ExecutionId))
    else if !Named(c.requestId) then Bad(Missing(RequestId))
    else if !Named(c.provider) then Bad(Missing(Provider))
    else if !Named(c.model) then Bad(Missing(Model))
    else if KindOf(c.kind).None? then Bad(InvalidKind)
    else if TierOf(c.tier).None? then Bad(UnknownTier)
    else if !SafeNumber(c.input) then Bad(NotSafe(Input))
    else if !SafeNumber(c.cached) then Bad(NotSafe(Cached))
    else if !SafeNumber(c.output) then Bad(NotSafe(Output))
    else if !SafeNumber(c.reasoning) then Bad(NotSafe(Reasoning))
    else if c.cached.n > c.input.n then Bad(CachedExceedsInput)
    else if c.reasoning.n > c.output.n then Bad(ReasoningExceedsOutput)
    else Good(ReceiptOf(c))
  }

  function ReceiptOf(c: Claim): Receipt
    requires c.executionId.Some? && c.requestId.Some? && c.provider.Some? && c.model.Some?
    requires KindOf(c.kind).Some? && TierOf(c.tier).Some?
    requires c.input.Whole? && c.cached.Whole? && c.output.Whole? && c.reasoning.Whole?
  {
    Receipt(c.executionId.value, c.requestId.value, c.provider.value, c.model.value, KindOf(c.kind).value,
            c.input.n, c.cached.n, c.output.n, c.reasoning.n, TierOf(c.tier).value)
  }

  predicate SameRequest(a: Receipt, b: Receipt) {
    a.provider == b.provider && a.executionId == b.executionId && a.requestId == b.requestId
  }

  function Key(r: Receipt): Text {
    CanonicalJson.UsageKey(r.provider, r.executionId, r.requestId)
  }

  /** The JSON key identifies the request: no two requests share one. */
  lemma {:induction false} KeyIdentifies(a: Receipt, b: Receipt)
    ensures Key(a) == Key(b) <==> SameRequest(a, b)
  {
    if Key(a) == Key(b) {
      CanonicalJson.UsageKeyInjective(a.provider, a.executionId, a.requestId, b.provider, b.executionId, b.requestId);
    }
  }

  // ------------------------------------------------------------- recording

  datatype Reply = Recorded | Duplicate | Rejected(error: Error)

  predicate Bounded(r: Receipt) {
    0 <= r.cached <= r.input <= MAX_SAFE && 0 <= r.reasoning <= r.output <= MAX_SAFE
  }

  /** Every stored receipt passed the checks, and no two are for one request. */
  ghost predicate Sound(rs: seq<Receipt>) {
    && (forall i :: 0 <= i < |rs| ==> Bounded(rs[i]))
    && (forall i, j :: 0 <= i < j < |rs| ==> !SameRequest(rs[i], rs[j]))
  }

  /** The ledger has a receipt for this request. */
  predicate Has(rs: seq<Receipt>, r: Receipt) {
    exists x :: x in rs && SameRequest(x, r)
  }

  function Answer(rs: seq<Receipt>, c: Claim): Reply {
    match Check(c)
    case Bad(error) => Rejected(error)
    case Good(r) =>
      if r in rs then Duplicate
      else if Has(rs, r) then Rejected(Conflicting)
      else Recorded
  }

  /** Only a claim that is answered `Recorded` changes the ledger, by one receipt. */
  function After(rs: seq<Receipt>, c: Claim): seq<Receipt> {
    if Answer(rs, c) == Recorded then rs + [Check(c).receipt] else rs
  }

  // ------------------------------------------------------------- adding up

  /** A JavaScript sum of credits: a number, or NaN. */
  type Credits = Option<real>

  datatype Totals = Totals(
    generations: int, prewarms: int, compactions: int, input: int, cached: int, output: int, reasoning: int,
    credits: Credits, unpriced: int)

  const ZERO := Totals(0, 0, 0, 0, 0, 0, 0, Some(0.0), 0)

  datatype Rate = NoRate | Rate(input: real, cached: real, output: real) | NotARate

  /** The rate table is an object literal, so a name that every object inherits is found
      in it too, and is not a rate. */
  const INHERITED: seq<string> :=
    ["constructor", "hasOwnProperty", "isPrototypeOf", "propertyIsEnumerable", "toLocaleString", "toString",
     "valueOf", "__proto__", "__defineGetter__", "__defineSetter__", "__lookupGetter__", "__lookupSetter__"]

  predicate Inherited(model: Text) {
    exists i :: 0 <= i < |INHERITED| && Is(model, INHERITED[i])
  }

  function RateOf(model: Text): Rate {
    if Is(model, "gpt-6-astra") then Rate(250.0, 25.0, 1250.0)
    else if Is(model, "gpt-5.6-sol") then Rate(100.0, 10.0, 500.0)
    else if Is(model, "gpt-5.6-terra") then Rate(50.0, 5.0, 300.0)
    else if Is(model, "gpt-5.6-luna") then Rate(5.0, 0.5, 30.0)
    else if Inherited(model) then NotARate
    else NoRate
  }

  function RateFor(r: Receipt): Rate {
    if Is(r.provider, "openai") then RateOf(r.model) else NoRate
  }

  predicate Unpriced(r: Receipt) {
    RateFor(r).NoRate? || (r.tier == Fast && !Is(r.model, "gpt-6-astra"))
  }

  /** What a receipt's tokens cost at a rate per million, before the service tier. */
  function Cost(rate: Rate, r: Receipt): real
    requires rate.Rate?
  {
    (r.input - r.cached) as real * rate.input + r.cached as real * rate.cached + r.output as real * rate.output
  }

  function Charge(rate: Rate, r: Receipt): real
    requires rate.Rate?
  {
    Cost(rate, r) / 1000000.0 * (if r.tier == Fast then 2.5 else 1.0)
  }

  function CreditsOf(r: Receipt): Credits {
    if Unpriced(r) then Some(0.0)
    else if RateFor(r).Rate? then Some(Charge(RateFor(r), r))
    else None
  }

  function Plus(a: Credits, b: Credits): Credits {
    if a.Some? && b.Some? then Some(a.value + b.value) else None
  }

  function Add(t: Totals, r: Receipt): Totals {
    Totals(
      t.generations + (if r.kind == Generation then 1 else 0),
      t.prewarms + (if r.kind == Prewarm then 1 else 0),
      t.compactions + (if r.kind == Compaction then 1 else 0),
      t.input + r.input, t.cached + r.cached, t.output + r.output, t.reasoning + r.reasoning,
      Plus(t.credits, CreditsOf(r)), t.unpriced + (if Unpriced(r) then 1 else 0))
  }

  /** The exact totals. */
  function Sum(rs: seq<Receipt>): Totals {
    Fold(Add, ZERO, rs)
  }

  datatype Summary = Summarized(requests: nat, totals: Totals, uncached: int, pricingComplete: bool)

  predicate AllSafe(t: Totals) {
    Safe(t.input) && Safe(t.cached) && Safe(t.output) && Safe(t.reasoning)
  }

  /** What a summary should say: the exact totals, or nothing once one is out of range. */
  function Summarize(rs: seq<Receipt>): Option<Summary> {
    var t := Sum(rs);
    if AllSafe(t) then Some(Summarized(|rs|, t, t.input - t.cached, t.unpriced == 0)) else None
  }

  ghost predicate Rounding(round: int -> int) {
    && (forall n :: 0 <= n <= TWO_53 ==> round(n) == n)
    && (forall m, n :: m <= n ==> round(m) <= round(n))
  }

  /** A rounded running total is exact, or has left the safe range for good. */
  predicate Tracks(rounded: int, exact: int) {
    0 <= exact && if exact <= TWO_53 then rounded == exact else rounded >= TWO_53
  }

  lemma {:induction false} TracksOn(round: int -> int, rounded: int, exact: int, x: int)
    requires Rounding(round) && Tracks(rounded, exact) && 0 <= x
    ensures Tracks(round(rounded + x), exact + x)
  {
    assert round(TWO_53) == TWO_53;
    assert rounded + x > TWO_53 ==> round(TWO_53) <= round(rounded + x);
  }

  predicate TracksAll(t: Totals, exact: Totals) {
    && Tracks(t.input, exact.input) && Tracks(t.cached, exact.cached)
    && Tracks(t.output, exact.output) && Tracks(t.reasoning, exact.reasoning)
    && t == exact.(input := t.input, cached := t.cached, output := t.output, reasoning := t.reasoning)
  }

  lemma {:induction false} SumNext(rs: seq<Receipt>, i: nat)
    requires i < |rs|
    ensures Sum(rs[..i + 1]) == Add(Sum(rs[..i]), rs[i])
  {
    assert rs[..i + 1][..i] == rs[..i];
  }

  /** Checking the rounded totals after the fact is sound and complete: they pass exactly
      when the exact totals are in range, and then they are the exact totals. */
  lemma {:induction false} RangeCheckIsSound(t: Totals, exact: Totals)
    requires TracksAll(t, exact)
    ensures AllSafe(t) <==> AllSafe(exact)
    ensures AllSafe(t) ==> t == exact
  {}

  // ------------------------------------------------------------- the ledger

  function InOrder(order: seq<Text>, receipts: map<Text, Receipt>): (rs: seq<Receipt>)
    requires forall i :: 0 <= i < |order| ==> order[i] in receipts
    ensures |rs| == |order| && forall i :: 0 <= i < |rs| ==> rs[i] == receipts[order[i]]
  {
    seq(|order|, i requires 0 <= i < |order| => receipts[order[i]])
  }

  class UsageLedger {
    /** The map's keys in insertion order, and its entries. */
    var order: seq<Text>
    var receipts: map<Text, Receipt>

    ghost predicate Valid()
      reads this
    {
      && (forall k :: k in receipts <==> k in order)
      && (forall i, j :: 0 <= i < j < |order| ==> order[i] != order[j])
      && (forall k :: k in receipts ==> Key(receipts[k]) == k)
      && Sound(Contents())
    }

    /** The stored receipts in insertion order. */
    ghost function Contents(): (rs: seq<Receipt>)
      reads this
      requires forall i :: 0 <= i < |order| ==> order[i] in receipts
      ensures |rs| == |order| && forall i :: 0 <= i < |rs| ==> rs[i] == receipts[order[i]]
    {
      InOrder(order, receipts)
    }

    constructor ()
      ensures Valid() && Contents() == []
    {
      order, receipts := [], map[];
    }

    method Record(c: Claim) returns (reply: Reply)
      requires Valid()
      modifies this
      ensures Valid()
      ensures reply == Answer(old(Contents()), c)
      ensures Contents() == After(old(Contents()), c)
    {
      if !Named(c.executionId) { return Rejected(Missing(ExecutionId)); }
      if !Named(c.requestId) { return Rejected(Missing(RequestId)); }
      if !Named(c.provider) { return Rejected(Missing(Provider)); }
      if !Named(c.model) { return Rejected(Missing(Model)); }
      if KindOf(c.kind).None? { return Rejected(InvalidKind); }
      if TierOf(c.tier).None? { return Rejected(UnknownTier); }
      if !SafeNumber(c.input) { return Rejected(NotSafe(Input)); }
      if !SafeNumber(c.cached) { return Rejected(NotSafe(Cached)); }
      if !SafeNumber(c.output) { return Rejected(NotSafe(Output)); }
      if !SafeNumber(c.reasoning) { return Rejected(NotSafe(Reasoning)); }
      if c.cached.n > c.input.n { return Rejected(CachedExceedsInput); }
      if c.reasoning.n > c.output.n { return Rejected(ReasoningExceedsOutput); }
      reply := Store(ReceiptOf(c));
    }

    /** Looks the request up under its key; an equal receipt is a repeat, another one a conflict. */
    method Store(clean: Receipt) returns (reply: Reply)
      requires Valid() && Bounded(clean)
      modifies this
      ensures Valid()
      ensures reply == if clean in old(Contents()) then Duplicate
                       else if Has(old(Contents()), clean) then Rejected(Conflicting)
                       else Recorded
      ensures Contents() == if reply == Recorded then old(Contents()) + [clean] else old(Contents())
    {
      var key := Key(clean);
      LookupMeans(clean);
      if key in receipts {
        return if receipts[key] != clean then Rejected(Conflicting) else Duplicate;
      }
      ghost var was := Contents();
      order := order + [key];
      receipts := receipts[key := clean];
      assert Contents() == was + [clean];
      reply := Recorded;
    }

    /** Looking up the key finds the one receipt for the same request. */
    lemma {:induction false} LookupMeans(clean: Receipt)
      requires Valid()
      ensures Key(clean) in receipts <==> Has(Contents(), clean)
      ensures Key(clean) in receipts ==> (receipts[Key(clean)] == clean <==> clean in Contents())
    {
      if Key(clean) in receipts {
        var i :| 0 <= i < |order| && order[i] == Key(clean);
        KeyIdentifies(Contents()[i], clean);
        assert Contents()[i] in Contents();
      }
      forall x | x in Contents() ensures Key(x) in receipts && receipts[Key(x)] == x {
        var i :| 0 <= i < |order| && Contents()[i] == x;
        assert order[i] in receipts;
      }
      if x :| x in Contents() && SameRequest(x, clean) {
        KeyIdentifies(x, clean);
      }
    }

    /** If a summary is returned its token totals are the exact sums, and it is returned
        exactly when the exact sums are safe integers. */
    method Summary(round: int -> int) returns (summary: Option<Summary>)
      requires Valid() && Rounding(round)
      ensures summary == Summarize(Contents())
      ensures summary.Some? ==> Reports(Contents(), summary.value)
    {
      var t := AddUp(round, order, receipts);
      TotalsAreReported(Contents(), t);
      if !AllSafe(t) {
        return None;
      }
      summary := Some(Summarized(|order|, t, t.input - t.cached, t.unpriced == 0));
    }
  }

  method AddUp(round: int -> int, order: seq<Text>, receipts: map<Text, Receipt>) returns (t: Totals)
    requires forall i :: 0 <= i < |order| ==> order[i] in receipts && Bounded(receipts[order[i]])
    requires Rounding(round)
    ensures TracksAll(t, Sum(InOrder(order, receipts)))
  {
    t := ZERO;
    ghost var rs := InOrder(order, receipts);
    for i := 0 to |order|
      invariant TracksAll(t, Sum(rs[..i]))
    {
      SumNext(rs, i);
      t := Accumulate(round, t, receipts[order[i]], Sum(rs[..i]));
    }
    assert rs[..|order|] == rs;
  }

  /** One pass through the summary's loop: requests and tokens, then credits. */
  method Accumulate(round: int -> int, t: Totals, item: Receipt, ghost exact: Totals) returns (t': Totals)
    requires Rounding(round) && TracksAll(t, exact) && Bounded(item)
    ensures TracksAll(t', Add(exact, item))
  {
    t' := t;
    if item.kind == Generation { t' := t'.(generations := t'.generations + 1); }
    if item.kind == Prewarm { t' := t'.(prewarms := t'.prewarms + 1); }
    if item.kind == Compaction { t' := t'.(compactions := t'.compactions + 1); }
    var input := AddTokens(round, t'.input, item.input, exact.input);
    var cached := AddTokens(round, t'.cached, item.cached, exact.cached);
    var output := AddTokens(round, t'.output, item.output, exact.output);
    var reasoning := AddTokens(round, t'.reasoning, item.reasoning, exact.reasoning);
    var credits, unpriced := AddCredits(t'.credits, t'.unpriced, item);
    t' := t'.(input := input, cached := cached, output := output, reasoning := reasoning,
              credits := credits, unpriced := unpriced);
  }

  method AddTokens(round: int -> int, total: int, x: int, ghost exact: int) returns (total': int)
    requires Rounding(round) && Tracks(total, exact) && 0 <= x
    ensures Tracks(total', exact + x)
  {
    TracksOn(round, total, exact, x);
    total' := round(total + x);
  }

  method AddCredits(credits: Credits, unpriced: int, item: Receipt) returns (credits': Credits, unpriced': int)
    ensures credits' == Plus(credits, CreditsOf(item))
    ensures unpriced' == unpriced + if Unpriced(item) then 1 else 0
  {
    NothingForUnpriced(credits, item);
    var rate := if Is(item.provider, "openai") then RateOf(item.model) else NoRate;
    if rate.NoRate? || (item.tier == Fast && !Is(item.model, "gpt-6-astra")) {
      return credits, unpriced + 1;
    }
    if rate.NotARate? {
      return None, unpriced;
    }
    var charge := ChargeFor(rate, item);
    return if credits.Some? then Some(credits.value + charge) else None, unpriced;
  }

  method ChargeFor(rate: Rate, item: Receipt) returns (charge: real)
    requires rate.Rate?
    ensures charge == Charge(rate, item)
  {
    var cost :=
      (item.input - item.cached) as real * rate.input
      + item.cached as real * rate.cached
      + item.output as real * rate.output;
    charge := cost / 1000000.0 * (if item.tier == Fast then 2.5 else 1.0);
  }

  lemma {:induction false} NothingForUnpriced(c: Credits, r: Receipt)
    ensures Unpriced(r) ==> Plus(c, CreditsOf(r)) == c
  {}

  // ------------------------------------------------------------- what a reply means

  predicate Acceptable(c: Claim) {
    Check(c).Good?
  }

  /** Over a sound ledger: an acceptable claim is recorded when its request is new, a repeat
      when the same receipt is stored, and a conflict when another receipt is stored for its
      request.  Nothing else changes the ledger. */
  lemma {:induction false} ReplyMeans(rs: seq<Receipt>, c: Claim)
    requires Sound(rs)
    ensures Acceptable(c) ==> var r := Check(c).receipt;
              && (Answer(rs, c) == Recorded <==> !Has(rs, r))
              && (Answer(rs, c) == Duplicate <==> r in rs)
              && (Answer(rs, c) == Rejected(Conflicting) <==> exists x :: x in rs && SameRequest(x, r) && x != r)
    ensures Answer(rs, c) != Recorded ==> After(rs, c) == rs
    ensures Sound(After(rs, c)) && rs <= After(rs, c)
  {
    if Acceptable(c) {
      var r := Check(c).receipt;
      if r in rs {
        var i :| 0 <= i < |rs| && rs[i] == r;
        forall x | x in rs && SameRequest(x, r) ensures x == r {
          var j :| 0 <= j < |rs| && rs[j] == x;
          assert i == j;
        }
      }
    }
  }

  // ------------------------------------------------------------- what a check lets through

  /** The receipt says what the claim said. */
  predicate Restates(r: Receipt, c: Claim) {
    && c.executionId == Some(r.executionId) && c.requestId == Some(r.requestId)
    && c.provider == Some(r.provider) && c.model == Some(r.model)
    && c.input == Whole(r.input) && c.cached == Whole(r.cached)
    && c.output == Whole(r.output) && c.reasoning == Whole(r.reasoning)
    && Is(c.kind, match r.kind
                  case Generation => "generation" case Prewarm => "prewarm" case Compaction => "compaction")
    && Is(c.tier, if r.tier == Fast then "fast" else "default")
  }

  /** Something is left after trimming. */
  predicate HasText(t: Text) {
    exists i :: 0 <= i < |t| && !TrimmedUnit(t[i])
  }

  /** A claim is acceptable exactly if it restates a receipt with four names and with counts in
      range, cached within input and reasoning within output; that receipt is recorded. */
  lemma {:induction false} CheckMeans(c: Claim, r: Receipt)
    ensures Check(c) == Good(r) <==>
              && Restates(r, c) && Bounded(r)
              && HasText(r.executionId) && HasText(r.requestId) && HasText(r.provider) && HasText(r.model)
  {
    KindsAndTiers(c.kind, c.tier);
  }

  /** No text names two kinds or two tiers. */
  lemma {:induction false} KindsAndTiers(kind: Text, tier: Text)
    ensures Is(kind, "generation") ==> !Is(kind, "prewarm") && !Is(kind, "compaction")
    ensures Is(kind, "prewarm") ==> !Is(kind, "compaction")
    ensures Is(tier, "fast") ==> !Is(tier, "default")
  {
    assert "generation"[0] == 'g' && "compaction"[0] == 'c';
  }

  /** The fault that a rejection names. */
  predicate Fault(c: Claim, error: Error) {
    match error
    case Missing(ExecutionId) => !Named(c.executionId)
    case Missing(RequestId) => !Named(c.requestId)
    case Missing(Provider) => !Named(c.provider)
    case Missing(Model) => !Named(c.model)
    case InvalidKind => !Is(c.kind, "generation") && !Is(c.kind, "prewarm") && !Is(c.kind, "compaction")
    case UnknownTier => !Is(c.tier, "default") && !Is(c.tier, "fast")
    case NotSafe(Input) => !SafeNumber(c.input)
    case NotSafe(Cached) => !SafeNumber(c.cached)
    case NotSafe(Output) => !SafeNumber(c.output)
    case NotSafe(Reasoning) => !SafeNumber(c.reasoning)
    case CachedExceedsInput => c.cached.Whole? && c.input.Whole? && c.cached.n > c.input.n
    case ReasoningExceedsOutput => c.reasoning.Whole? && c.output.Whole? && c.reasoning.n > c.output.n
    case Conflicting => false
  }

  /** A claim that does not pass has the fault that its rejection names. */
  lemma {:induction false} RejectionMeans(c: Claim)
    ensures Check(c).Bad? ==> Fault(c, Check(c).error)
    ensures Check(c).Good? ==> forall error :: !Fault(c, error)
  {}

  // ------------------------------------------------------------- order and replay

  function Replay(claims: seq<Claim>): seq<Receipt> {
    if claims == [] then [] else After(Replay(claims[..|claims| - 1]), Last(claims))
  }

  /** The receipts that acceptable claims stand for. */
  ghost predicate Claims(claims: seq<Claim>, r: Receipt) {
    exists i :: 0 <= i < |claims| && Check(claims[i]) == Good(r)
  }

  /** No two claims give different accounts of one request. */
  ghost predicate ConflictFree(claims: seq<Claim>) {
    forall r, s :: Claims(claims, r) && Claims(claims, s) && SameRequest(r, s) ==> r == s
  }

  lemma {:induction false} ClaimsSplit(claims: seq<Claim>, r: Receipt)
    requires claims != []
    ensures Claims(claims, r) <==> Claims(claims[..|claims| - 1], r) || Check(Last(claims)) == Good(r)
  {
    var front := claims[..|claims| - 1];
    if i :| 0 <= i < |claims| && Check(claims[i]) == Good(r) {
      assert i < |front| ==> front[i] == claims[i];
    }
    if i :| 0 <= i < |front| && Check(front[i]) == Good(r) {
      assert claims[i] == front[i];
    }
  }

  /** Whatever the claims, the ledger is sound, holds only what was claimed, and has a
      receipt for every claimed request. */
  lemma {:induction false} ReplayHolds(claims: seq<Claim>)
    ensures Sound(Replay(claims))
    ensures forall r :: r in Replay(claims) ==> Claims(claims, r)
    ensures forall r :: Claims(claims, r) ==> Has(Replay(claims), r)
  {
    if claims != [] {
      var front, c := claims[..|claims| - 1], Last(claims);
      ReplayHolds(front);
      ReplyMeans(Replay(front), c);
      forall r | r in Replay(claims) ensures Claims(claims, r) {
        ClaimsSplit(claims, r);
      }
      forall r | Claims(claims, r) ensures Has(Replay(claims), r) {
        ClaimsSplit(claims, r);
        AfterHas(Replay(front), c, r);
      }
    }
  }

  lemma {:induction false} AfterHas(rs: seq<Receipt>, c: Claim, r: Receipt)
    requires Has(rs, r) || Check(c) == Good(r)
    ensures Has(After(rs, c), r)
  {
    if Has(rs, r) {
      var x :| x in rs && SameRequest(x, r);
      assert x in After(rs, c);
    } else if Answer(rs, c) == Recorded {
      assert r in After(rs, c);
    }
  }

  /** A conflict-free history leaves exactly the set of claimed receipts. */
  lemma {:induction false} ReplayIsTheSet(claims: seq<Claim>)
    requires ConflictFree(claims)
    ensures Sound(Replay(claims)) && forall r :: r in Replay(claims) <==> Claims(claims, r)
  {
    ReplayHolds(claims);
    forall r | Claims(claims, r) ensures r in Replay(claims) {
      var x :| x in Replay(claims) && SameRequest(x, r);
      assert x == r;
    }
  }

  lemma {:induction false} AddCommutes(t: Totals, a: Receipt, b: Receipt)
    ensures Add(Add(t, a), b) == Add(Add(t, b), a)
  {
    PlusCommutes(t.credits, CreditsOf(a), CreditsOf(b));
  }

  lemma {:induction false} PlusCommutes(a: Credits, b: Credits, c: Credits)
    ensures Plus(Plus(a, b), c) == Plus(Plus(a, c), b)
  {}

  lemma {:induction false} AdditionCommutes()
    ensures Commutes(Add)
  {
    forall t, a, b ensures Add(Add(t, a), b) == Add(Add(t, b), a) {
      AddCommutes(t, a, b);
    }
  }

  lemma {:induction false} SumIsOverTheSet(xs: seq<Receipt>, ys: seq<Receipt>)
    requires Sound(xs) && Sound(ys) && forall r :: r in xs <==> r in ys
    ensures Sum(xs) == Sum(ys) && |xs| == |ys|
  {
    AdditionCommutes();
    SoundHasNoRepeats(xs);
    SoundHasNoRepeats(ys);
    FoldIsOverTheSet(Add, ZERO, xs, ys);
  }

  lemma {:induction false} SoundHasNoRepeats(rs: seq<Receipt>)
    requires Sound(rs)
    ensures NoRepeats(rs)
  {}

  /** Accounting depends only on the set of claimed receipts: repeats and order do not
      matter, as long as no request is claimed with two different receipts. */
  lemma {:induction false} AccountingIsOverTheSet(claims: seq<Claim>, others: seq<Claim>)
    requires ConflictFree(claims) && ConflictFree(others)
    requires forall r :: Claims(claims, r) <==> Claims(others, r)
    ensures Summarize(Replay(claims)) == Summarize(Replay(others))
  {
    ReplayIsTheSet(claims);
    ReplayIsTheSet(others);
    SummaryIsOverTheSet(Replay(claims), Replay(others));
  }

  lemma {:induction false} SummaryIsOverTheSet(rs: seq<Receipt>, others: seq<Receipt>)
    requires Sound(rs) && Sound(others) && forall r :: r in rs <==> r in others
    ensures Summarize(rs) == Summarize(others)
  {
    SumIsOverTheSet(rs, others);
  }

  /** No claim of the history was answered with a conflict. */
  predicate NoConflicts(claims: seq<Claim>) {
    claims == [] ||
    var front := claims[..|claims| - 1];
    NoConflicts(front) && Answer(Replay(front), Last(claims)) != Rejected(Conflicting)
  }

  /** The condition is exact: a history is conflict-free if and only if none of its claims
      was answered with a conflict. */
  lemma {:induction false} ConflictFreeIff(claims: seq<Claim>)
    ensures ConflictFree(claims) <==> NoConflicts(claims)
  {
    if claims != [] {
      ConflictFreeIff(claims[..|claims| - 1]);
      ConflictFreeSnoc(claims);
    }
  }

  /** One more claim: conflict-free iff it was before and the claim is no conflict. */
  lemma {:induction false} ConflictFreeSnoc(claims: seq<Claim>)
    requires claims != []
    ensures var front := claims[..|claims| - 1];
            ConflictFree(claims) <==>
              ConflictFree(front) && Answer(Replay(front), Last(claims)) != Rejected(Conflicting)
  {
    var front, c := claims[..|claims| - 1], Last(claims);
    ReplayHolds(front);
    ReplyMeans(Replay(front), c);
    forall r ensures Claims(claims, r) <==> Claims(front, r) || Check(c) == Good(r) {
      ClaimsSplit(claims, r);
    }
    if ConflictFree(front) {
      ReplayIsTheSet(front);
    }
    if ConflictFree(front) && Acceptable(c) && Answer(Replay(front), c) != Rejected(Conflicting) {
      forall r | Claims(front, r) && SameRequest(r, Check(c).receipt) ensures r == Check(c).receipt {
        assert r in Replay(front);
      }
    }
  }

  /** What every summary of a sound ledger satisfies. */
  lemma {:induction false} SumIsConsistent(rs: seq<Receipt>)
    requires Sound(rs)
    ensures var t := Sum(rs);
            && |rs| == t.generations + t.prewarms + t.compactions
            && 0 <= t.cached <= t.input && 0 <= t.reasoning <= t.output
            && (t.unpriced == 0 <==> forall i :: 0 <= i < |rs| ==> !Unpriced(rs[i]))
            && (t.credits.Some? <==> forall i :: 0 <= i < |rs| ==> HasNumber(rs[i]))
            && 0 <= t.unpriced
  {
    TokensAreConsistent(rs);
    PricesAreConsistent(rs);
  }

  lemma {:induction false} TokensAreConsistent(rs: seq<Receipt>)
    requires forall i :: 0 <= i < |rs| ==> Bounded(rs[i])
    ensures var t := Sum(rs);
            && |rs| == t.generations + t.prewarms + t.compactions
            && 0 <= t.cached <= t.input && 0 <= t.reasoning <= t.output
  {
    if rs != [] {
      TokensAreConsistent(rs[..|rs| - 1]);
      assert Bounded(Last(rs));
    }
  }

  predicate HasNumber(r: Receipt) {
    Unpriced(r) || RateFor(r).Rate?
  }

  lemma {:induction false} PricesAreConsistent(rs: seq<Receipt>)
    ensures var t := Sum(rs);
            && 0 <= t.unpriced
            && (t.unpriced == 0 <==> forall i :: 0 <= i < |rs| ==> !Unpriced(rs[i]))
            && (t.credits.Some? <==> forall i :: 0 <= i < |rs| ==> HasNumber(rs[i]))
  {
    if rs != [] {
      var front := rs[..|rs| - 1];
      PricesAreConsistent(front);
      assert rs == front + [Last(rs)];
      CreditsAreNumbers(Last(rs));
    }
  }

  lemma {:induction false} CreditsAreNumbers(r: Receipt)
    ensures CreditsOf(r).Some? <==> HasNumber(r)
  {}

  /** "Pricing complete" does not promise a number: a model named like a property that every
      object inherits is found in the rate table, and its credits are not a number. */
  lemma {:induction false} CompletePricingMayLackANumber(rs: seq<Receipt>)
    requires Sound(rs) && |rs| == 1 && rs[0].tier == Default
    requires Is(rs[0].provider, "openai") && Is(rs[0].model, "toString")
    ensures Sum(rs).unpriced == 0 && Sum(rs).credits == None
  {
    assert Is(rs[0].model, INHERITED[5]);
    FoldSnoc(Add, ZERO, [], rs[0]);
    assert rs == [] + [rs[0]];
    assert |rs[0].model| == 8;
  }

  // ------------------------------------------------------------- what a summary says

  function Total(amount: Receipt -> int, rs: seq<Receipt>): int {
    if rs == [] then 0 else Total(amount, rs[..|rs| - 1]) + amount(Last(rs))
  }

  /** How many receipts have a property. */
  function HowMany(has: Receipt -> bool, rs: seq<Receipt>): nat {
    |set i | 0 <= i < |rs| && has(rs[i])|
  }

  lemma {:induction false} HowManySnoc(has: Receipt -> bool, rs: seq<Receipt>)
    requires rs != []
    ensures HowMany(has, rs) == HowMany(has, rs[..|rs| - 1]) + if has(Last(rs)) then 1 else 0
  {
    var front := rs[..|rs| - 1];
    var before, now := set i | 0 <= i < |front| && has(front[i]), set i | 0 <= i < |rs| && has(rs[i]);
    forall i ensures i in now <==> i in before || (i == |front| && has(Last(rs))) {
      assert 0 <= i < |front| ==> front[i] == rs[i];
    }
    OneMore(before, now, |front|, has(Last(rs)));
  }

  lemma {:induction false} OneMore(before: set<int>, now: set<int>, n: int, more: bool)
    requires n !in before && forall i :: i in now <==> i in before || (i == n && more)
    ensures |now| == |before| + if more then 1 else 0
  {
    var all := before + if more then {n} else {};
    forall i ensures i in now <==> i in all {}
    assert now == all;
  }

  const INPUT: Receipt -> int := (r: Receipt) => r.input
  const CACHED: Receipt -> int := (r: Receipt) => r.cached
  const OUTPUT: Receipt -> int := (r: Receipt) => r.output
  const REASONING: Receipt -> int := (r: Receipt) => r.reasoning
  const GENERATIONS: Receipt -> bool := (r: Receipt) => r.kind == Generation
  const PREWARMS: Receipt -> bool := (r: Receipt) => r.kind == Prewarm
  const COMPACTIONS: Receipt -> bool := (r: Receipt) => r.kind == Compaction

  function CreditTotal(rs: seq<Receipt>): real {
    if rs == [] then 0.0
    else
      var credits := CreditsOf(Last(rs));
      CreditTotal(rs[..|rs| - 1]) + if credits.Some? then credits.value else 0.0
  }

  /** Each count is the total of its own count over all receipts, and each kind's counter is
      the number of receipts of that kind; credits that are a number are the
      total of all credits. */
  ghost predicate Accounts(rs: seq<Receipt>, t: Totals) {
    && t.input == Total(INPUT, rs) && t.cached == Total(CACHED, rs)
    && t.output == Total(OUTPUT, rs) && t.reasoning == Total(REASONING, rs)
    && t.generations == HowMany(GENERATIONS, rs) && t.prewarms == HowMany(PREWARMS, rs)
    && t.compactions == HowMany(COMPACTIONS, rs) && t.unpriced == HowMany(Unpriced, rs)
    && (t.credits.Some? ==> t.credits.value == CreditTotal(rs))
  }

  lemma {:induction false} SumAccounts(rs: seq<Receipt>)
    ensures Accounts(rs, Sum(rs))
  {
    if rs != [] {
      SumAccounts(rs[..|rs| - 1]);
      KindsCount(rs);
    }
  }

  lemma {:induction false} KindsCount(rs: seq<Receipt>)
    requires rs != [] && Accounts(rs[..|rs| - 1], Sum(rs[..|rs| - 1]))
    ensures var t := Sum(rs);
            && t.generations == HowMany(GENERATIONS, rs) && t.prewarms == HowMany(PREWARMS, rs)
            && t.compactions == HowMany(COMPACTIONS, rs) && t.unpriced == HowMany(Unpriced, rs)
  {
    HowManySnoc(GENERATIONS, rs);
    HowManySnoc(PREWARMS, rs);
    HowManySnoc(COMPACTIONS, rs);
    HowManySnoc(Unpriced, rs);
  }

  /** What callers may rely on: the totals over all stored receipts, their difference, and
      whether every receipt was priced. */
  ghost predicate Reports(rs: seq<Receipt>, s: Summary) {
    && Accounts(rs, s.totals) && s.requests == |rs|
    && s.uncached == Total(INPUT, rs) - Total(CACHED, rs)
    && (s.pricingComplete <==> forall r :: r in rs ==> !Unpriced(r))
    && (s.pricingComplete ==> s.totals.unpriced == 0)
  }

  /** A summary is refused exactly when one of the four totals is no safe integer. */
  lemma {:induction false} SummaryReports(rs: seq<Receipt>)
    requires Sound(rs)
    ensures Summarize(rs) == None <==>
              || Total(INPUT, rs) > 9007199254740991 || Total(CACHED, rs) > 9007199254740991
              || Total(OUTPUT, rs) > 9007199254740991 || Total(REASONING, rs) > 9007199254740991
    ensures Summarize(rs).Some? ==> Reports(rs, Summarize(rs).value)
  {
    SumAccounts(rs);
    SumIsConsistent(rs);
  }

  /** The totals that the loop tracked are reported exactly when they are safe integers. */
  lemma {:induction false} TotalsAreReported(rs: seq<Receipt>, t: Totals)
    requires Sound(rs) && TracksAll(t, Sum(rs))
    ensures var s := Summarized(|rs|, t, t.input - t.cached, t.unpriced == 0);
            && Summarize(rs) == (if AllSafe(t) then Some(s) else None)
            && (AllSafe(t) ==> Reports(rs, s))
  {
    RangeCheckIsSound(t, Sum(rs));
    SummaryReports(rs);
  }

  // ------------------------------------------------------------- what credits mean

  /** In every rate of the table a cached token costs a tenth of a fresh one, which costs less
      than an output token. */
  lemma {:induction false} RatesAreOrdered(model: Text)
    requires RateOf(model).Rate?
    ensures var rate := RateOf(model); rate.input == 10.0 * rate.cached && 0.0 < rate.input < rate.output
  {}

  lemma {:induction false} CostDifference(rate: Rate, r: Receipt, k: nat)
    requires rate.Rate? && rate.input == 10.0 * rate.cached
    ensures Cost(rate, r) - Cost(rate, r.(cached := r.cached + k)) == k as real * rate.cached * 9.0
  {
    var full, read := (r.input - r.cached) as real, r.cached as real;
    var more := r.(cached := r.cached + k);
    assert (more.input - more.cached) as real == full - k as real && more.cached as real == read + k as real;
    Distributes(full, k as real, rate.input);
    Distributes(read + k as real, k as real, rate.cached);
  }

  lemma {:induction false} Distributes(a: real, b: real, c: real)
    ensures (a - b) * c == a * c - b * c
  {}

  /** Reading k more of the input from the cache saves nine tenths of what those tokens cost. */
  lemma {:induction false} CachingSaves(r: Receipt, k: nat)
    requires !Unpriced(r) && RateFor(r).Rate? && r.cached + k <= r.input
    ensures var more := r.(cached := r.cached + k);
            var tier := if r.tier == Fast then 2.5 else 1.0;
            && CreditsOf(r).Some? && CreditsOf(more).Some?
            && CreditsOf(r).value - CreditsOf(more).value == k as real * RateFor(r).cached * 9.0 / 1000000.0 * tier
  {
    var more := r.(cached := r.cached + k);
    var rate := RateFor(r);
    RatesAreOrdered(r.model);
    CostDifference(rate, r, k);
    var tier := if r.tier == Fast then 2.5 else 1.0;
    ChargeDifference(Cost(rate, r), Cost(rate, more), k as real * rate.cached * 9.0, tier);
  }

  lemma {:induction false} ChargeDifference(a: real, b: real, x: real, tier: real)
    requires a - b == x
    ensures a / 1000000.0 * tier - b / 1000000.0 * tier == x / 1000000.0 * tier
  {
    Distributes(a / 1000000.0, b / 1000000.0, tier);
  }

  /** Fast service costs two and a half times as much on the one model that offers it at a
      published rate, and is unpriced on every other. */
  lemma {:induction false} FastCosts(r: Receipt)
    requires r.tier == Fast
    ensures !Unpriced(r) <==> Is(r.provider, "openai") && Is(r.model, "gpt-6-astra")
    ensures !Unpriced(r) ==> var slow := CreditsOf(r.(tier := Default));
              slow.Some? && CreditsOf(r) == Some(slow.value * 2.5)
  {
    if !Unpriced(r) {
      FastCharge(RateFor(r), r);
    }
  }

  lemma {:induction false} FastCharge(rate: Rate, r: Receipt)
    requires rate.Rate? && r.tier == Fast
    ensures Charge(rate, r) == Charge(rate, r.(tier := Default)) * 2.5
  {
    var slow := r.(tier := Default);
    assert Cost(rate, r) == Cost(rate, slow);
    var base := Cost(rate, r) / 1000000.0;
    assert base * 2.5 == base * 1.0 * 2.5;
  }

  /** A receipt for the same service with other token counts. */
  function Counting(r: Receipt, input: nat, cached: nat, output: nat): Receipt {
    r.(input := input, cached := cached, output := output)
  }

  lemma {:induction false} CostAdds(rate: Rate, r: Receipt, a: (nat, nat, nat), b: (nat, nat, nat))
    requires rate.Rate?
    ensures Cost(rate, Counting(r, a.0 + b.0, a.1 + b.1, a.2 + b.2))
         == Cost(rate, Counting(r, a.0, a.1, a.2)) + Cost(rate, Counting(r, b.0, b.1, b.2))
  {
    Distributes((a.0 + b.0 - a.1 - b.1) as real, (b.0 - b.1) as real, rate.input);
    Distributes((a.1 + b.1) as real, b.1 as real, rate.cached);
    Distributes((a.2 + b.2) as real, b.2 as real, rate.output);
  }

  /** Credits are additive in the token counts: splitting a request's tokens over two receipts
      for the same service costs the same.  Reasoning tokens are not charged on top. */
  lemma {:induction false} CreditsAdd(r: Receipt, a: (nat, nat, nat), b: (nat, nat, nat))
    requires HasNumber(r)
    ensures var both := CreditsOf(Counting(r, a.0 + b.0, a.1 + b.1, a.2 + b.2));
            var one, other := CreditsOf(Counting(r, a.0, a.1, a.2)), CreditsOf(Counting(r, b.0, b.1, b.2));
            both.Some? && one.Some? && other.Some? && both.value == one.value + other.value
    ensures forall k :: CreditsOf(r.(reasoning := k)) == CreditsOf(r)
  {
    if !Unpriced(r) {
      var rate := RateFor(r);
      CostAdds(rate, r, a, b);
      var tier := if r.tier == Fast then 2.5 else 1.0;
      var x, y := Cost(rate, Counting(r, a.0, a.1, a.2)), Cost(rate, Counting(r, b.0, b.1, b.2));
      ChargeDifference(x + y, y, x, tier);
    }
    forall k ensures CreditsOf(r.(reasoning := k)) == CreditsOf(r) {
      if !Unpriced(r) && RateFor(r).Rate? {
        assert Cost(RateFor(r), r.(reasoning := k)) == Cost(RateFor(r), r);
      }
    }
  }

  const MILLION: nat := 1000000

  /** The published credits per million tokens: fresh input, cached input, output. */
  predicate Published(model: Text, input: real, cached: real, output: real) {
    || (Is(model, "gpt-6-astra") && (input, cached, output) == (250.0, 25.0, 1250.0))
    || (Is(model, "gpt-5.6-sol") && (input, cached, output) == (100.0, 10.0, 500.0))
    || (Is(model, "gpt-5.6-terra") && (input, cached, output) == (50.0, 5.0, 300.0))
    || (Is(model, "gpt-5.6-luna") && (input, cached, output) == (5.0, 0.5, 30.0))
  }

  /** A million tokens of each sort cost the published rate; with `CreditsAdd` and `FastCosts`
      this determines the credits of every priced receipt. */
  lemma {:induction false} MillionsCostTheRate(r: Receipt, input: real, cached: real, output: real)
    requires Is(r.provider, "openai") && r.tier == Default && Published(r.model, input, cached, output)
    ensures CreditsOf(Counting(r, MILLION, 0, 0)) == Some(input)
    ensures CreditsOf(Counting(r, MILLION, MILLION, 0)) == Some(cached)
    ensures CreditsOf(Counting(r, 0, 0, MILLION)) == Some(output)
  {
    assert Is(r.model, "gpt-5.6-sol") ==> r.model[4] == '5' as int;
    assert RateFor(r) == Rate(input, cached, output);
  }
}
