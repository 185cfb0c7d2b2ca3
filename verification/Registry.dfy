/** The executor registry (src/durable_threads/execution.py) and the routing activity
    that queries it (src/durable_threads/temporal_activities.py).  Availability probes
    are an oracle: a predicate on executor ids, free to change between queries. */
module Registry {
  import opened Common
  import opened Intelligence
  import opened TaskWorkflow

  datatype Descriptor = Descriptor(
    id: string, provider: string, capabilities: set<string>,
    persistent: bool, headless: bool, structured: bool, effort: bool)

  datatype Requirements = Requirements(
    capabilities: set<string>, headless: bool, persistent: bool, structured: bool, effort: bool,
    preferred: seq<string>, excluded: seq<string>)

  datatype Selection = Selection(descriptor: Descriptor, score: int, reasons: seq<string>)

  type Probe = string -> bool

  function Codes(s: string): (r: seq<int>)
    ensures |r| == |s| && forall i :: 0 <= i < |s| ==> r[i] == s[i] as int
  {
    seq(|s|, i requires 0 <= i < |s| => s[i] as int)
  }

  predicate StringLess(a: string, b: string) {
    LexLess(Codes(a), Codes(b))
  }

  lemma {:induction false} StringTrichotomy(a: string, b: string)
    ensures StringLess(a, b) || a == b || StringLess(b, a)
    ensures !(StringLess(a, b) && StringLess(b, a))
    ensures StringLess(a, b) ==> a != b
  {
    LexTrichotomy(Codes(a), Codes(b));
    if Codes(a) == Codes(b) {
      assert forall i :: 0 <= i < |a| ==> a[i] as int == Codes(a)[i] && b[i] as int == Codes(b)[i];
      assert a == b;
    }
  }

  /** A later mention of a provider overrides an earlier one. */
  function LastIndex(names: seq<string>, name: string): (r: Option<nat>)
    ensures r.Some? ==> r.value < |names| && names[r.value] == name && name !in names[r.value + 1..]
    ensures r.None? <==> name !in names
  {
    if names == [] then None
    else if Last(names) == name then Some(|names| - 1)
    else LastIndex(names[..|names| - 1], name)
  }

  function Preference(preferred: seq<string>, provider: string): (r: nat)
    ensures r <= |preferred| && (r == 0 <==> provider !in preferred)
    ensures r > 0 ==>
              preferred[|preferred| - r] == provider && provider !in preferred[|preferred| - r + 1..]
  {
    match LastIndex(preferred, provider)
    case None => 0
    case Some(index) => |preferred| - index
  }

  function Bonus(d: Descriptor): (r: nat)
    ensures r <= 9
  {
    (if d.structured then 5 else 0) + (if d.persistent then 3 else 0) + (if d.effort then 1 else 0)
  }

  function ScoreOf(d: Descriptor, req: Requirements): int {
    Preference(req.preferred, d.provider) * 100 + Bonus(d)
  }

  const SATISFIED := "required capabilities satisfied"
  const PREFERRED := "preferred provider"
  const STRUCTURED := "structured output"
  const PERSISTENT := "persistent sessions"
  const EFFORT := "reasoning effort control"

  /** Why an executor scored as it did. */
  function ReasonsOf(d: Descriptor, req: Requirements): seq<string> {
    [SATISFIED]
    + (if d.provider in req.preferred then [PREFERRED] else [])
    + (if d.structured then [STRUCTURED] else [])
    + (if d.persistent then [PERSISTENT] else []) + (if d.effort then [EFFORT] else [])
  }

  function SelectionOf(d: Descriptor, req: Requirements): Selection {
    Selection(d, ScoreOf(d, req), ReasonsOf(d, req))
  }

  predicate Eligible(d: Descriptor, req: Requirements, available: Probe) {
    && d.provider !in req.excluded
    && req.capabilities <= d.capabilities
    && (req.headless ==> d.headless)
    && (req.persistent ==> d.persistent)
    && (req.structured ==> d.structured)
    && (req.effort ==> d.effort)
    && available(d.id)
  }

  /** The sort key: higher score first, then smaller id. */
  predicate Before(a: Selection, b: Selection) {
    a.score > b.score || (a.score == b.score && StringLess(a.descriptor.id, b.descriptor.id))
  }

  predicate DistinctIds(plugins: seq<Descriptor>) {
    forall i, j :: 0 <= i < j < |plugins| ==> plugins[i].id != plugins[j].id
  }

  function Selections(plugins: seq<Descriptor>, req: Requirements, available: Probe): (r: seq<Selection>)
    ensures forall x :: x in r <==>
              x.descriptor in plugins && Eligible(x.descriptor, req, available) && x == SelectionOf(x.descriptor, req)
  {
    if plugins == [] then []
    else
      var r := Selections(plugins[..|plugins| - 1], req, available);
      var d := Last(plugins);
      assert plugins == plugins[..|plugins| - 1] + [d];
      if Eligible(d, req, available) then r + [SelectionOf(d, req)] else r
  }

  function Insert(sorted: seq<Selection>, x: Selection): (r: seq<Selection>)
    ensures forall y :: y in r <==> y in sorted || y == x
  {
    if sorted == [] then [x]
    else if Before(x, sorted[0]) then [x] + sorted
    else
      assert sorted == [sorted[0]] + sorted[1..];
      [sorted[0]] + Insert(sorted[1..], x)
  }

  function Sorted(xs: seq<Selection>): (r: seq<Selection>)
    ensures forall y :: y in r <==> y in xs
  {
    if xs == [] then []
    else
      assert xs == xs[..|xs| - 1] + [Last(xs)];
      Insert(Sorted(xs[..|xs| - 1]), Last(xs))
  }

  function Ranked(plugins: seq<Descriptor>, req: Requirements, available: Probe): seq<Selection> {
    Sorted(Selections(plugins, req, available))
  }

  // ------------------------------------------------------- the registry object

  datatype Registered = Ok | AlreadyRegistered

  class ExecutionRegistry {
    /** Registration order; the source's dictionary keeps it. */
    var plugins: seq<Descriptor>

    predicate Valid()
      reads this
    {
      DistinctIds(plugins)
    }

    constructor ()
      ensures Valid() && plugins == []
    {
      plugins := [];
    }

    /** A replacement keeps the place of what it replaces; nothing else moves. */
    method Register(d: Descriptor, replace: bool) returns (r: Registered)
      requires Valid()
      modifies this
      ensures Valid()
      ensures r == AlreadyRegistered <==>
                (exists i :: 0 <= i < |old(plugins)| && old(plugins)[i].id == d.id) && !replace
      ensures r == AlreadyRegistered ==> plugins == old(plugins)
      ensures r == Ok ==> d in plugins
      ensures r == Ok ==> forall x :: x in plugins <==> x == d || (x in old(plugins) && x.id != d.id)
    {
      var k := 0;
      while k < |plugins| && plugins[k].id != d.id
        invariant 0 <= k <= |plugins|
        invariant forall i :: 0 <= i < k ==> plugins[i].id != d.id
      {
        k := k + 1;
      }
      if k < |plugins| {
        if !replace {
          return AlreadyRegistered;
        }
        ghost var was := plugins;
        plugins := plugins[k := d];
        assert plugins[k] == d;
        forall x | x in was && x.id != d.id ensures x in plugins {
          var i :| 0 <= i < |was| && was[i] == x;
          assert plugins[i] == x;
        }
      } else {
        plugins := plugins + [d];
      }
      r := Ok;
    }

    /** The score of an eligible executor, with its reasons. */
    static method Score(d: Descriptor, req: Requirements) returns (selection: Selection)
      ensures selection == SelectionOf(d, req)
    {
      var score: int := Preference(req.preferred, d.provider) * 100;
      var reasons := [SATISFIED];
      if d.provider in req.preferred { reasons := reasons + [PREFERRED]; }
      if d.structured { score, reasons := score + 5, reasons + [STRUCTURED]; }
      if d.persistent { score, reasons := score + 3, reasons + [PERSISTENT]; }
      if d.effort { score, reasons := score + 1, reasons + [EFFORT]; }
      selection := Selection(d, score, reasons);
    }

    method Rank(req: Requirements, available: Probe) returns (ranked: seq<Selection>)
      requires Valid()
      ensures ranked == Ranked(plugins, req, available)
    {
      var selections: seq<Selection> := [];
      for i := 0 to |plugins|
        invariant selections == Selections(plugins[..i], req, available)
      {
        var d := plugins[i];
        assert plugins[..i + 1][..i] == plugins[..i];
        if d.provider in req.excluded || !(req.capabilities <= d.capabilities) {
        } else if req.headless && !d.headless {
        } else if req.persistent && !d.persistent {
        } else if req.structured && !d.structured {
        } else if req.effort && !d.effort {
        } else if !available(d.id) {
        } else {
          var selection := Score(d, req);
          selections := selections + [selection];
        }
      }
      assert plugins[..|plugins|] == plugins;
      ranked := Sorted(selections);
    }
  }

  // ------------------------------------------------------------ canonical order

  ghost predicate StrictlySorted(xs: seq<Selection>) {
    forall i, j :: 0 <= i < j < |xs| ==> Before(xs[i], xs[j])
  }

  lemma {:induction false} BeforeTransitive(a: Selection, b: Selection, c: Selection)
    requires Before(a, b) && Before(b, c)
    ensures Before(a, c)
  {
    if a.score == b.score == c.score {
      LexTransitive(Codes(a.descriptor.id), Codes(b.descriptor.id), Codes(c.descriptor.id));
    }
  }

  lemma {:induction false} InsertSorts(xs: seq<Selection>, x: Selection)
    requires StrictlySorted(xs)
    requires forall y :: y in xs ==> y.descriptor.id != x.descriptor.id
    ensures StrictlySorted(Insert(xs, x)) && |Insert(xs, x)| == |xs| + 1
  {
    if xs != [] {
      StringTrichotomy(x.descriptor.id, xs[0].descriptor.id);
      if Before(x, xs[0]) {
        forall j | 0 < j < |xs| ensures Before(x, xs[j]) {
          BeforeTransitive(x, xs[0], xs[j]);
        }
      } else {
        assert Before(xs[0], x);
        InsertSorts(xs[1..], x);
        var r := Insert(xs[1..], x);
        forall j | 0 <= j < |r| ensures Before(xs[0], r[j]) {
          assert r[j] in r;
        }
      }
    }
  }

  lemma {:induction false} SelectionsSort(plugins: seq<Descriptor>, req: Requirements, available: Probe)
    requires DistinctIds(plugins)
    ensures StrictlySorted(Ranked(plugins, req, available))
  {
    if plugins != [] {
      var front, d := plugins[..|plugins| - 1], Last(plugins);
      SelectionsSort(front, req, available);
      var xs := Selections(front, req, available);
      if Eligible(d, req, available) {
        var x := SelectionOf(d, req);
        assert (xs + [x])[..|xs|] == xs;
        forall y | y in Sorted(xs) ensures y.descriptor.id != d.id {
          assert y in xs && y.descriptor in front;
        }
        InsertSorts(Sorted(xs), x);
      }
    }
  }

  lemma {:induction false} BeforeIrreflexive(a: Selection, b: Selection)
    ensures !(Before(a, b) && Before(b, a)) && !Before(a, a)
  {
    StringTrichotomy(a.descriptor.id, b.descriptor.id);
    StringTrichotomy(a.descriptor.id, a.descriptor.id);
  }

  /** Strictly sorted sequences with the same elements are equal. */
  lemma {:induction false} SortedUnique(xs: seq<Selection>, ys: seq<Selection>)
    requires StrictlySorted(xs) && StrictlySorted(ys)
    requires forall x :: x in xs <==> x in ys
    ensures xs == ys
  {
    if xs == [] || ys == [] {
      SameElementsEmpty(xs, ys);
    } else {
      assert xs[0] in ys;
      assert ys[0] in xs;
      var i :| 0 <= i < |ys| && ys[i] == xs[0];
      var j :| 0 <= j < |xs| && xs[j] == ys[0];
      BeforeIrreflexive(xs[0], ys[0]);
      assert xs[0] == ys[0];
      forall x ensures x in xs[1..] <==> x in ys[1..] {
        BeforeIrreflexive(xs[0], xs[0]);
        assert x in xs[1..] ==> x in xs && Before(xs[0], x);
        assert x in ys[1..] ==> x in ys && Before(ys[0], x);
        assert x in xs <==> x == xs[0] || x in xs[1..];
        assert x in ys <==> x == ys[0] || x in ys[1..];
      }
      SortedUnique(xs[1..], ys[1..]);
    }
  }

  /** Ranking returns exactly the eligible executors, each once and in strict order, and
      does not depend on the order in which they were registered. */
  lemma {:induction false} RankingIsCanonical(plugins: seq<Descriptor>, others: seq<Descriptor>, req: Requirements,
                                              available: Probe)
    requires DistinctIds(plugins) && DistinctIds(others)
    requires forall d :: d in plugins <==> d in others
    ensures var r := Ranked(plugins, req, available);
            && StrictlySorted(r)
            && (forall d :: d in plugins && Eligible(d, req, available) <==> SelectionOf(d, req) in r)
            && r == Ranked(others, req, available)
  {
    SelectionsSort(plugins, req, available);
    SelectionsSort(others, req, available);
    SortedUnique(Ranked(plugins, req, available), Ranked(others, req, available));
  }

  /** An executor is ranked exactly if it meets every requirement and is available. */
  lemma {:induction false} RankedMeetRequirements(plugins: seq<Descriptor>, req: Requirements, available: Probe,
                                                  d: Descriptor)
    ensures (exists x :: x in Ranked(plugins, req, available) && x.descriptor == d)
       <==> (&& d in plugins && available(d.id)
             && (forall c :: c in req.capabilities ==> c in d.capabilities)
             && (forall p :: p in req.excluded ==> p != d.provider)
             && (d.headless || !req.headless) && (d.persistent || !req.persistent)
             && (d.structured || !req.structured) && (d.effort || !req.effort))
  {
    if d in plugins && Eligible(d, req, available) {
      assert SelectionOf(d, req) in Ranked(plugins, req, available);
    }
  }

  /** Scores order executors lexicographically: preference, then capability bonus, then id. */
  lemma {:induction false} ScoreIsLexicographic(a: Descriptor, b: Descriptor, req: Requirements)
    ensures var pa, pb := Preference(req.preferred, a.provider), Preference(req.preferred, b.provider);
            Before(SelectionOf(a, req), SelectionOf(b, req))
            <==> (|| pa > pb
                  || (pa == pb && Bonus(a) > Bonus(b))
                  || (pa == pb && Bonus(a) == Bonus(b) && StringLess(a.id, b.id)))
  {
    var pa, pb := Preference(req.preferred, a.provider), Preference(req.preferred, b.provider);
    assert pa > pb ==> pa * 100 >= pb * 100 + 100;
    assert pb > pa ==> pb * 100 >= pa * 100 + 100;
  }

  /** No two reasons are worded alike. */
  lemma {:induction false} ReasonsDiffer()
    ensures SATISFIED !in {PREFERRED, STRUCTURED, PERSISTENT, EFFORT} && PREFERRED !in {STRUCTURED, PERSISTENT, EFFORT}
    ensures STRUCTURED !in {PERSISTENT, EFFORT} && PERSISTENT != EFFORT
  {
    assert SATISFIED[2] == 'q' && PREFERRED[2] == 'e' && STRUCTURED[2] == PERSISTENT[2] == 'r' && EFFORT[2] == 'a';
    assert STRUCTURED[0] == 's' && PERSISTENT[0] == 'p';
  }

  /** The reasons account for the score: each capability that counts is named exactly if the
      executor has it, the bonus is the sum of those named, and a preference is named exactly
      when it scores. */
  lemma {:induction false} ReasonsExplainScore(d: Descriptor, req: Requirements)
    ensures var reasons := ReasonsOf(d, req);
            && reasons[0] == "required capabilities satisfied"
            && (PREFERRED in reasons <==> Preference(req.preferred, d.provider) > 0)
            && ("structured output" in reasons <==> d.structured)
            && ("persistent sessions" in reasons <==> d.persistent)
            && ("reasoning effort control" in reasons <==> d.effort)
            && ScoreOf(d, req) - Preference(req.preferred, d.provider) * 100
               == (if STRUCTURED in reasons then 5 else 0) + (if PERSISTENT in reasons then 3 else 0)
                  + (if EFFORT in reasons then 1 else 0)
  {
    ReasonsDiffer();
  }

  // ------------------------------------------------------------ routing activity

  const FILESYSTEM := "filesystem"
  const GIT := "git"

  /** Children per round: one for work that may write a checkout. */
  function Fanout(task: TaskInput, ta: TaskAssessment): nat {
    if ta.executionShape == PARALLEL_WORKERS && FILESYSTEM !in task.capabilities && GIT !in task.capabilities
    then task.parallelism else 1
  }

  function RequirementsOf(task: TaskInput, r: Request): Requirements {
    Requirements(task.capabilities, true, false, true, false,
                 if r.preferred != [] then r.preferred else task.preferred, r.excluded)
  }

  function ProvidersFor(selections: seq<Selection>): (r: seq<string>)
    ensures |r| == |selections|
    ensures forall i :: 0 <= i < |r| ==> r[i] == selections[i].descriptor.provider
  {
    seq(|selections|, i requires 0 <= i < |selections| => selections[i].descriptor.provider)
  }

  /** The routing answer; no eligible executor is an empty answer, not a failure. */
  function RouteActivity(plugins: seq<Descriptor>, available: Probe, task: TaskInput, ta: TaskAssessment,
                         r: Request): seq<string>
  {
    var ranked := Ranked(plugins, RequirementsOf(task, r), available);
    var count := Fanout(task, ta);
    ProvidersFor(if count < |ranked| then ranked[..count] else ranked)
  }

  function ProviderSet(plugins: seq<Descriptor>): set<string> {
    set d | d in plugins :: d.provider
  }

  /** Routing stays inside the registry, honours every exclusion and the fan-out bound. */
  lemma {:induction false} RouteHonoursExclusions(plugins: seq<Descriptor>, available: Probe, task: TaskInput,
                                                  ta: TaskAssessment, r: Request)
    ensures var routes := RouteActivity(plugins, available, task, ta, r);
            && |routes| <= Fanout(task, ta)
            && forall p :: p in routes ==> p in ProviderSet(plugins) && p !in r.excluded
  {
    var ranked := Ranked(plugins, RequirementsOf(task, r), available);
    var routes := RouteActivity(plugins, available, task, ta, r);
    forall p | p in routes ensures p in ProviderSet(plugins) && p !in r.excluded {
      var i :| 0 <= i < |routes| && routes[i] == p;
      assert ranked[i] in ranked;
      assert ranked[i].descriptor in plugins;
    }
  }

  // ------------------------------------------------------------ who is routed

  /** An executor that can do the task's work unattended and is not excluded. */
  predicate CanWork(d: Descriptor, available: Probe, task: TaskInput, r: Request) {
    && task.capabilities <= d.capabilities && d.headless && d.structured
    && available(d.id) && d.provider !in r.excluded
  }

  /** The request's preference, or the task's own if it has none. */
  function PreferenceIn(task: TaskInput, r: Request): seq<string> {
    if r.preferred == [] then task.preferred else r.preferred
  }

  function Workers(plugins: seq<Descriptor>, available: Probe, task: TaskInput, r: Request): set<Descriptor> {
    set d | d in plugins && CanWork(d, available, task, r)
  }

  /** How many executors one round may use. */
  function Places(task: TaskInput, ta: TaskAssessment): nat {
    if ta.executionShape != "parallel_workers" then 1
    else if "filesystem" in task.capabilities || "git" in task.capabilities then 1
    else task.parallelism
  }

  lemma {:induction false} InsertSize(sorted: seq<Selection>, x: Selection)
    ensures |Insert(sorted, x)| == |sorted| + 1
  {
    if sorted != [] {
      InsertSize(sorted[1..], x);
    }
  }

  lemma {:induction false} SortedSize(xs: seq<Selection>)
    ensures |Sorted(xs)| == |xs|
  {
    if xs != [] {
      SortedSize(xs[..|xs| - 1]);
      InsertSize(Sorted(xs[..|xs| - 1]), Last(xs));
    }
  }

  lemma {:induction false} WorkersCounted(plugins: seq<Descriptor>, available: Probe, task: TaskInput, r: Request)
    requires DistinctIds(plugins)
    ensures |Selections(plugins, RequirementsOf(task, r), available)| == |Workers(plugins, available, task, r)|
  {
    if plugins != [] {
      var front, d := plugins[..|plugins| - 1], Last(plugins);
      WorkersCounted(front, available, task, r);
      assert plugins == front + [d] && d !in front;
      assert Workers(plugins, available, task, r)
          == Workers(front, available, task, r) + if CanWork(d, available, task, r) then {d} else {};
    }
  }

  lemma {:induction false} RoutedSelection(plugins: seq<Descriptor>, available: Probe, task: TaskInput,
                                           ta: TaskAssessment, r: Request, i: nat)
    requires i < |RouteActivity(plugins, available, task, ta, r)|
    ensures var ranked := Ranked(plugins, RequirementsOf(task, r), available);
            && i < |ranked| && ranked[i].descriptor in plugins
            && CanWork(ranked[i].descriptor, available, task, r)
            && ranked[i] == SelectionOf(ranked[i].descriptor, RequirementsOf(task, r))
            && RouteActivity(plugins, available, task, ta, r)[i] == ranked[i].descriptor.provider
  {
    var ranked := Ranked(plugins, RequirementsOf(task, r), available);
    assert ranked[i] in ranked;
  }

  /** Every routed provider has an executor that can do the work, and no place stays empty
      while another such executor is left. */
  lemma {:induction false} RoutesCanWork(plugins: seq<Descriptor>, available: Probe, task: TaskInput,
                                         ta: TaskAssessment, r: Request)
    requires DistinctIds(plugins)
    ensures var routes, n := RouteActivity(plugins, available, task, ta, r), |Workers(plugins, available, task, r)|;
            && (forall p :: p in routes ==> exists d :: d in Workers(plugins, available, task, r) && d.provider == p)
            && |routes| == if n < Places(task, ta) then n else Places(task, ta)
  {
    var routes := RouteActivity(plugins, available, task, ta, r);
    forall p | p in routes ensures exists d :: d in Workers(plugins, available, task, r) && d.provider == p {
      var i :| 0 <= i < |routes| && routes[i] == p;
      RoutedSelection(plugins, available, task, ta, r, i);
      assert Ranked(plugins, RequirementsOf(task, r), available)[i].descriptor in Workers(plugins, available, task, r);
    }
    WorkersCounted(plugins, available, task, r);
    SortedSize(Selections(plugins, RequirementsOf(task, r), available));
  }

  lemma {:induction false} HigherScoreIsPreferred(a: Descriptor, b: Descriptor, req: Requirements)
    requires Before(SelectionOf(a, req), SelectionOf(b, req))
    ensures Preference(req.preferred, a.provider) >= Preference(req.preferred, b.provider)
  {
    ScoreIsLexicographic(a, b, req);
  }

  /** Routes come in order of preference, and an executor that could have done the work is left
      out only for providers that are at least as preferred. */
  lemma {:induction false} RoutesArePreferred(plugins: seq<Descriptor>, available: Probe, task: TaskInput,
                                              ta: TaskAssessment, r: Request)
    requires DistinctIds(plugins)
    ensures var routes, names := RouteActivity(plugins, available, task, ta, r), PreferenceIn(task, r);
            && (forall i, j :: 0 <= i < j < |routes| ==> Preference(names, routes[i]) >= Preference(names, routes[j]))
            && (forall d, p ::
                  d in plugins && CanWork(d, available, task, r) && d.provider !in routes && p in routes ==>
                    Preference(names, p) >= Preference(names, d.provider))
  {
    var req := RequirementsOf(task, r);
    var ranked := Ranked(plugins, req, available);
    var routes := RouteActivity(plugins, available, task, ta, r);
    SelectionsSort(plugins, req, available);
    forall i, j | 0 <= i < j < |routes|
      ensures Preference(req.preferred, routes[i]) >= Preference(req.preferred, routes[j])
    {
      RoutedSelection(plugins, available, task, ta, r, i);
      RoutedSelection(plugins, available, task, ta, r, j);
      HigherScoreIsPreferred(ranked[i].descriptor, ranked[j].descriptor, req);
    }
    forall d, p | d in plugins && CanWork(d, available, task, r) && d.provider !in routes && p in routes
      ensures Preference(req.preferred, p) >= Preference(req.preferred, d.provider)
    {
      var i :| 0 <= i < |routes| && routes[i] == p;
      RoutedSelection(plugins, available, task, ta, r, i);
      LeftOut(plugins, available, task, ta, r, d, i);
    }
  }

  /** What is left out is ranked below what is routed. */
  lemma {:induction false} LeftOut(plugins: seq<Descriptor>, available: Probe, task: TaskInput, ta: TaskAssessment,
                                   r: Request, d: Descriptor, i: nat)
    requires StrictlySorted(Ranked(plugins, RequirementsOf(task, r), available))
    requires d in plugins && CanWork(d, available, task, r)
    requires d.provider !in RouteActivity(plugins, available, task, ta, r)
    requires i < |RouteActivity(plugins, available, task, ta, r)|
    ensures Preference(PreferenceIn(task, r), RouteActivity(plugins, available, task, ta, r)[i])
         >= Preference(PreferenceIn(task, r), d.provider)
  {
    var req := RequirementsOf(task, r);
    var ranked, routes := Ranked(plugins, req, available), RouteActivity(plugins, available, task, ta, r);
    RoutedSelection(plugins, available, task, ta, r, i);
    assert SelectionOf(d, req) in ranked;
    var k :| 0 <= k < |ranked| && ranked[k] == SelectionOf(d, req);
    if k < |routes| {
      RoutedSelection(plugins, available, task, ta, r, k);
      assert false;
    }
    HigherScoreIsPreferred(ranked[i].descriptor, d, req);
  }
}
