/** Accepting worker evidence for integration (src/durable_threads/evidence.py): paths,
    checks and, when there is one, the actual diff.  Glob matching and the search for words
    that report an unsuccessful check are oracles. */
module EvidenceCheck {
  import opened Common
  import opened Evidence

  type Glob = (string, string) -> bool

  datatype Oracles = Oracles(glob: Glob, unsuccessful: string -> bool)

  datatype Refusal =
    | NoProvider
    | InvalidProvider
    | NoAllowedPaths
    | Unsafe(path: string)
    | Outside(path: string)
    | NoChecks
    | NoConcerns
    | UnsuccessfulCheck
    | DiffMismatch

  datatype Paths = PathsRefused(why: Refusal) | Clean(paths: seq<string>)

  datatype Verdict = Refused(why: Refusal) | Accepted(evidence: WorkerEvidence)

  // ------------------------------------------------------------- paths

  function Slashes(s: string): (r: string)
    ensures |r| == |s| && forall i :: 0 <= i < |s| ==> r[i] == if s[i] == '\\' then '/' else s[i]
  {
    seq(|s|, i requires 0 <= i < |s| => if s[i] == '\\' then '/' else s[i])
  }

  function Normal(path: string): string {
    Strip(Slashes(path))
  }

  function DropSlashes(s: string): (r: string)
    ensures r <= s && (r == "" || Last(r) != '/') && forall i :: |r| <= i < |s| ==> s[i] == '/'
  {
    if s != "" && Last(s) == '/' then DropSlashes(s[..|s| - 1]) else s
  }

  /** The parts between slashes. */
  function Parts(path: string): (r: seq<string>)
    ensures r != []
  {
    if path == "" then [""]
    else if path[0] == '/' then [""] + Parts(path[1..])
    else var rest := Parts(path[1..]); [[path[0]] + rest[0]] + rest[1..]
  }

  /** Relative, and without a step up. */
  predicate Safe(path: string) {
    path != "" && path[0] != '/' && path != "." && ".." !in Parts(path)
  }

  function Pattern(allowed: string): string {
    DropSlashes(Slashes(allowed))
  }

  predicate Matches(glob: Glob, path: string, allowed: string) {
    var p, a := Slashes(path), Pattern(allowed);
    p == a || a + "/" <= p || glob(p, a)
  }

  function Usable(allowed: seq<string>): (r: seq<string>)
    ensures forall a :: a in r <==> exists i :: 0 <= i < |allowed| && !Blank(allowed[i]) && Strip(allowed[i]) == a
  {
    if allowed == [] then []
    else
      assert allowed == allowed[..|allowed| - 1] + [Last(allowed)];
      Usable(allowed[..|allowed| - 1]) + if Blank(Last(allowed)) then [] else [Strip(Last(allowed))]
  }

  predicate Allowed(glob: Glob, path: string, usable: seq<string>) {
    exists i :: 0 <= i < |usable| && Matches(glob, path, usable[i])
  }

  predicate Good(glob: Glob, raw: string, usable: seq<string>) {
    Safe(Normal(raw)) && Allowed(glob, Normal(raw), usable)
  }

  /** The paths cleaned and without repeats, in first-seen order; or the first bad one. */
  function CleanPaths(glob: Glob, paths: seq<string>, usable: seq<string>): Paths {
    if paths == [] then Clean([])
    else
      var raw := Last(paths);
      match CleanPaths(glob, paths[..|paths| - 1], usable)
      case PathsRefused(why) => PathsRefused(why)
      case Clean(clean) =>
        if !Safe(Normal(raw)) then PathsRefused(Unsafe(raw))
        else if !Allowed(glob, Normal(raw), usable) then PathsRefused(Outside(Normal(raw)))
        else if Normal(raw) in clean then Clean(clean) else Clean(clean + [Normal(raw)])
  }

  function CheckPaths(glob: Glob, paths: seq<string>, allowed: seq<string>): Paths {
    if Usable(allowed) == [] then PathsRefused(NoAllowedPaths) else CleanPaths(glob, paths, Usable(allowed))
  }

  method ValidatePaths(glob: Glob, paths: seq<string>, allowedPaths: seq<string>) returns (r: Paths)
    ensures r == CheckPaths(glob, paths, allowedPaths)
  {
    var allowed := Usable(allowedPaths);
    if allowed == [] {
      return PathsRefused(NoAllowedPaths);
    }
    var clean: seq<string> := [];
    for i := 0 to |paths|
      invariant CleanPaths(glob, paths[..i], allowed) == Clean(clean)
    {
      assert paths[..i + 1][..i] == paths[..i];
      var path := Normal(paths[i]);
      if !Safe(path) {
        StaysRefused(glob, paths, allowed, i + 1);
        return PathsRefused(Unsafe(paths[i]));
      }
      if !Allowed(glob, path, allowed) {
        StaysRefused(glob, paths, allowed, i + 1);
        return PathsRefused(Outside(path));
      }
      if path !in clean {
        clean := clean + [path];
      }
    }
    assert paths[..|paths|] == paths;
    r := Clean(clean);
  }

  /** The first bad path decides. */
  lemma {:induction false} StaysRefused(glob: Glob, paths: seq<string>, usable: seq<string>, n: nat)
    requires n <= |paths| && CleanPaths(glob, paths[..n], usable).PathsRefused?
    ensures CleanPaths(glob, paths, usable) == CleanPaths(glob, paths[..n], usable)
    decreases |paths|
  {
    if n < |paths| {
      assert paths[..|paths| - 1][..n] == paths[..n];
      StaysRefused(glob, paths[..|paths| - 1], usable, n);
    } else {
      assert paths[..n] == paths;
    }
  }

  // ------------------------------------------------------------- the verdict

  /** An executor id: one to 64 lower-case letters, digits, dots, dashes and underscores,
      the first a letter or a digit. */
  predicate ExecutorId(s: string) {
    && 1 <= |s| <= 64 && s[0] !in {'.', '_', '-'}
    && forall i :: 0 <= i < |s| ==> 'a' <= s[i] <= 'z' || '0' <= s[i] <= '9' || s[i] in {'.', '_', '-'}
  }

  /** The diff's paths, cleaned, first mention first; empty names are dropped beforehand. */
  function Mentioned(actual: seq<string>): (r: seq<string>)
    ensures forall p :: p in r <==> exists i :: 0 <= i < |actual| && actual[i] != "" && Normal(actual[i]) == p
    ensures forall i, j :: 0 <= i < j < |r| ==> r[i] != r[j]
  {
    if actual == [] then []
    else
      assert actual == actual[..|actual| - 1] + [Last(actual)];
      var r := Mentioned(actual[..|actual| - 1]);
      var p := Normal(Last(actual));
      if Last(actual) == "" || p in r then r else r + [p]
  }

  function Elements(s: seq<string>): set<string> {
    set x | x in s
  }

  predicate AnyUnsuccessful(o: Oracles, checks: seq<string>) {
    exists i :: 0 <= i < |checks| && o.unsuccessful(checks[i])
  }

  function Validate(o: Oracles, e: WorkerEvidence, allowed: seq<string>, actual: Option<seq<string>>): Verdict {
    if e.provider == None || e.provider.value == "" then Refused(NoProvider)
    else if !ExecutorId(e.provider.value) then Refused(InvalidProvider)
    else
      match CheckPaths(o.glob, e.changed, allowed)
      case PathsRefused(why) => Refused(why)
      case Clean(changed) =>
        match CompleteError(o, e)
        case Some(why) => Refused(why)
        case None =>
          match if actual == None then None else DiffError(o.glob, changed, allowed, actual.value)
          case Some(why) => Refused(why)
          case None => Accepted(e.(changed := changed))
  }

  /** Why the evidence does not say enough to be complete. */
  function CompleteError(o: Oracles, e: WorkerEvidence): Option<Refusal> {
    if e.status != "complete" then None
    else if e.checks == [] then Some(NoChecks)
    else if e.concerns == [] then Some(NoConcerns)
    else if AnyUnsuccessful(o, e.checks) then Some(UnsuccessfulCheck)
    else None
  }

  /** Why the cleaned claims do not fit the diff. */
  function DiffError(glob: Glob, changed: seq<string>, allowed: seq<string>, actual: seq<string>): Option<Refusal> {
    match CheckPaths(glob, Mentioned(actual), allowed)
    case PathsRefused(why) => Some(why)
    case Clean(_) => if Elements(changed) != Elements(Mentioned(actual)) then Some(DiffMismatch) else None
  }

  // ------------------------------------------------------------- what cleaning means

  predicate AllGood(glob: Glob, paths: seq<string>, usable: seq<string>) {
    forall i :: 0 <= i < |paths| ==> Good(glob, paths[i], usable)
  }

  function Normals(paths: seq<string>): (r: seq<string>)
    ensures |r| == |paths| && forall i :: 0 <= i < |r| ==> r[i] == Normal(paths[i])
  {
    Map(Normal, paths)
  }

  /** Some path of the list is `p` once cleaned. */
  predicate Names(paths: seq<string>, p: string) {
    p in Normals(paths)
  }

  ghost predicate CleanedOf(clean: seq<string>, paths: seq<string>) {
    && (forall p :: p in clean <==> Names(paths, p))
    && forall i, j :: 0 <= i < j < |clean| ==> clean[i] != clean[j]
  }

  lemma {:induction false} NormalsSplit(paths: seq<string>)
    requires paths != []
    ensures Normals(paths) == Normals(paths[..|paths| - 1]) + [Normal(Last(paths))]
  {
    MapSnoc(Normal, paths);
  }

  lemma {:induction false} NamesSplit(paths: seq<string>, p: string)
    requires paths != []
    ensures Names(paths, p) <==> Names(paths[..|paths| - 1], p) || Normal(Last(paths)) == p
  {
    NormalsSplit(paths);
  }

  lemma {:induction false} AllGoodSplit(glob: Glob, paths: seq<string>, usable: seq<string>)
    requires paths != []
    ensures AllGood(glob, paths, usable)
       <==> AllGood(glob, paths[..|paths| - 1], usable) && Good(glob, Last(paths), usable)
  {
    var front := paths[..|paths| - 1];
    if AllGood(glob, front, usable) && Good(glob, Last(paths), usable) {
      forall i | 0 <= i < |paths| ensures Good(glob, paths[i], usable) {
        assert i < |front| ==> front[i] == paths[i];
      }
    }
  }

  lemma {:induction false} CleanWhenGood(glob: Glob, paths: seq<string>, usable: seq<string>)
    ensures CleanPaths(glob, paths, usable).Clean? <==> AllGood(glob, paths, usable)
  {
    if paths != [] {
      CleanWhenGood(glob, paths[..|paths| - 1], usable);
      AllGoodSplit(glob, paths, usable);
    }
  }

  lemma {:induction false} CleanGives(glob: Glob, paths: seq<string>, usable: seq<string>)
    requires CleanPaths(glob, paths, usable).Clean?
    ensures CleanedOf(CleanPaths(glob, paths, usable).paths, paths)
  {
    if paths != [] {
      var front := paths[..|paths| - 1];
      CleanGives(glob, front, usable);
      CleanedMore(CleanPaths(glob, front, usable).paths, paths, Normal(Last(paths)));
    }
  }

  lemma {:induction false} CleanedMore(clean: seq<string>, paths: seq<string>, p: string)
    requires paths != [] && CleanedOf(clean, paths[..|paths| - 1]) && p == Normal(Last(paths))
    ensures CleanedOf(if p in clean then clean else clean + [p], paths)
  {
    forall q ensures Names(paths, q) <==> Names(paths[..|paths| - 1], q) || p == q {
      NamesSplit(paths, q);
    }
  }

  /** Cleaning succeeds exactly when every path is good, and then gives the cleaned paths,
      each once. */
  lemma {:induction false} CleanIff(glob: Glob, paths: seq<string>, usable: seq<string>)
    ensures var r := CleanPaths(glob, paths, usable);
            && (r.Clean? <==> AllGood(glob, paths, usable))
            && (r.Clean? ==> CleanedOf(r.paths, paths))
  {
    CleanWhenGood(glob, paths, usable);
    if CleanPaths(glob, paths, usable).Clean? {
      CleanGives(glob, paths, usable);
    }
  }

  /** The cleaned list does not depend on what is allowed. */
  lemma {:induction false} CleanValue(glob: Glob, paths: seq<string>, usable: seq<string>, others: seq<string>)
    requires CleanPaths(glob, paths, usable).Clean? && CleanPaths(glob, paths, others).Clean?
    ensures CleanPaths(glob, paths, usable) == CleanPaths(glob, paths, others)
  {
    if paths != [] {
      CleanValue(glob, paths[..|paths| - 1], usable, others);
    }
  }

  /** The cleaned list keeps each path's first mention, in order. */
  lemma {:induction false} CleanIsFirsts(glob: Glob, paths: seq<string>, usable: seq<string>)
    ensures CleanPaths(glob, paths, usable).Clean? ==> CleanPaths(glob, paths, usable).paths == Firsts(Normals(paths))
  {
    if paths != [] && CleanPaths(glob, paths, usable).Clean? {
      var front := paths[..|paths| - 1];
      CleanIsFirsts(glob, front, usable);
      CleanIff(glob, front, usable);
      NormalsSplit(paths);
      assert Normals(paths)[..|front|] == Normals(front);
    }
  }

  lemma {:induction false} TrimInside(s: string)
    ensures forall c :: c in Strip(s) ==> c in s
  {
    LeftInside(s);
    assert Strip(s) <= TrimLeft(s);
  }

  lemma {:induction false} LeftInside(s: string)
    ensures forall c :: c in TrimLeft(s) ==> c in s
  {
    if s != "" && Space(s[0]) {
      LeftInside(s[1..]);
    }
  }

  /** A cleaned path is clean. */
  lemma {:induction false} NormalTwice(path: string)
    ensures Normal(Normal(path)) == Normal(path)
  {
    NoBackslash(path);
  }

  lemma {:induction false} CleanOneMore(glob: Glob, front: seq<string>, p: string, usable: seq<string>)
    requires CleanPaths(glob, front, usable) == Clean(front) && p !in front
    requires Normal(p) == p && Safe(p) && Allowed(glob, p, usable)
    ensures CleanPaths(glob, front + [p], usable) == Clean(front + [p])
  {
    assert (front + [p])[..|front|] == front;
  }

  /** Cleaning twice is cleaning once. */
  lemma {:induction false} CleanTwice(glob: Glob, paths: seq<string>, usable: seq<string>)
    ensures var r := CleanPaths(glob, paths, usable); r.Clean? ==> CleanPaths(glob, r.paths, usable) == r
  {
    if paths != [] && CleanPaths(glob, paths, usable).Clean? {
      var front, p := paths[..|paths| - 1], Normal(Last(paths));
      CleanTwice(glob, front, usable);
      var clean := CleanPaths(glob, front, usable).paths;
      if p !in clean {
        NormalTwice(Last(paths));
        CleanOneMore(glob, clean, p, usable);
      }
    }
  }

  // ------------------------------------------------------------- what acceptance means

  predicate Mentions(actual: seq<string>, p: string) {
    exists i :: 0 <= i < |actual| && actual[i] != "" && Normal(actual[i]) == p
  }

  /** The claimed paths are the diff's paths, as sets of cleaned paths. */
  ghost predicate ClaimsDiff(changed: seq<string>, actual: seq<string>) {
    forall p :: Names(changed, p) <==> Mentions(actual, p)
  }

  /** From an executor, and if complete with checks, none unsuccessful, and concerns. */
  predicate WellMade(o: Oracles, e: WorkerEvidence) {
    && e.provider.Some? && ExecutorId(e.provider.value)
    && (e.status == "complete" ==> e.checks != [] && e.concerns != [] && !AnyUnsuccessful(o, e.checks))
  }

  ghost predicate Acceptable(o: Oracles, e: WorkerEvidence, allowed: seq<string>, actual: Option<seq<string>>) {
    && WellMade(o, e)
    && Usable(allowed) != [] && AllGood(o.glob, e.changed, Usable(allowed))
    && (actual.Some? ==> ClaimsDiff(e.changed, actual.value))
  }

  /** The diff's paths need no check of their own once they are the claimed ones. */
  lemma {:induction false} DiffIsGood(glob: Glob, changed: seq<string>, actual: seq<string>, usable: seq<string>)
    requires AllGood(glob, changed, usable) && ClaimsDiff(changed, actual)
    ensures CleanPaths(glob, Mentioned(actual), usable).Clean?
  {
    var paths := Mentioned(actual);
    forall i | 0 <= i < |paths| ensures Good(glob, paths[i], usable) {
      assert paths[i] in paths && Mentions(actual, paths[i]);
      var k :| 0 <= k < |changed| && Normals(changed)[k] == paths[i];
      NormalTwice(changed[k]);
    }
    CleanIff(glob, paths, usable);
  }

  lemma {:induction false} SameSets(clean: seq<string>, changed: seq<string>, actual: seq<string>)
    requires CleanedOf(clean, changed)
    ensures Elements(clean) == Elements(Mentioned(actual)) <==> ClaimsDiff(changed, actual)
  {
    forall p ensures p in Mentioned(actual) <==> Mentions(actual, p) {}
    if Elements(clean) == Elements(Mentioned(actual)) {
      forall p ensures Names(changed, p) <==> Mentions(actual, p) {
        assert p in clean <==> p in Elements(clean);
        assert p in Mentioned(actual) <==> p in Elements(Mentioned(actual));
      }
    }
  }

  lemma {:induction false} DiffErrorIff(glob: Glob, clean: seq<string>, changed: seq<string>, allowed: seq<string>,
                                        actual: seq<string>)
    requires Usable(allowed) != [] && CleanPaths(glob, changed, Usable(allowed)) == Clean(clean)
    ensures DiffError(glob, clean, allowed, actual) == None <==> ClaimsDiff(changed, actual)
  {
    CleanIff(glob, changed, Usable(allowed));
    SameSets(clean, changed, actual);
    if ClaimsDiff(changed, actual) {
      DiffIsGood(glob, changed, actual, Usable(allowed));
    }
  }

  /** Evidence is accepted exactly when its provider is an executor id, every claimed path is
      relative, free of steps up and allowed, complete work names checks and concerns and no
      unsuccessful check, and the claimed paths are the diff's. */
  lemma {:induction false} AcceptedIff(o: Oracles, e: WorkerEvidence, allowed: seq<string>, actual: Option<seq<string>>)
    ensures Validate(o, e, allowed, actual).Accepted? <==> Acceptable(o, e, allowed, actual)
  {
    AcceptedSteps(o, e, allowed, actual);
    CleanWhenGood(o.glob, e.changed, Usable(allowed));
    var cleaned := CheckPaths(o.glob, e.changed, allowed);
    if cleaned.Clean? && actual.Some? {
      DiffErrorIff(o.glob, cleaned.paths, e.changed, allowed, actual.value);
    }
  }

  lemma {:induction false} AcceptedSteps(o: Oracles, e: WorkerEvidence, allowed: seq<string>,
                                         actual: Option<seq<string>>)
    ensures var cleaned := CheckPaths(o.glob, e.changed, allowed);
            Validate(o, e, allowed, actual).Accepted?
            <==> (&& WellMade(o, e) && cleaned.Clean?
                  && (actual.Some? ==> DiffError(o.glob, cleaned.paths, allowed, actual.value) == None))
  {}

  /** Evidence with its list of paths cleaned and nothing else changed. */
  ghost predicate OnlyCleaned(o: Oracles, e: WorkerEvidence, allowed: seq<string>, accepted: WorkerEvidence) {
    && accepted == e.(changed := accepted.changed)
    && CleanedOf(accepted.changed, e.changed)
    && CleanPaths(o.glob, e.changed, Usable(allowed)) == Clean(accepted.changed)
  }

  /** Acceptance cleans the list of paths and changes nothing else. */
  lemma {:induction false} AcceptedCleans(o: Oracles, e: WorkerEvidence, allowed: seq<string>,
                                          actual: Option<seq<string>>)
    requires Validate(o, e, allowed, actual).Accepted?
    ensures OnlyCleaned(o, e, allowed, Validate(o, e, allowed, actual).evidence)
  {
    CleanIff(o.glob, e.changed, Usable(allowed));
  }

  /** Accepted evidence is accepted again, unchanged. */
  lemma {:induction false} AcceptanceIsIdempotent(o: Oracles, e: WorkerEvidence, allowed: seq<string>,
                                                  actual: Option<seq<string>>)
    requires Validate(o, e, allowed, actual).Accepted?
    ensures var v := Validate(o, e, allowed, actual); Validate(o, v.evidence, allowed, actual) == v
  {
    var e' := Validate(o, e, allowed, actual).evidence;
    AcceptedIff(o, e, allowed, actual);
    AcceptedCleans(o, e, allowed, actual);
    CleanTwice(o.glob, e.changed, Usable(allowed));
    CleanIff(o.glob, e'.changed, Usable(allowed));
    forall p ensures Names(e'.changed, p) <==> Names(e.changed, p) {
      assert p in e'.changed <==> Names(e.changed, p);
      assert p in e'.changed <==> Names(e'.changed, p);
    }
    AcceptedIff(o, e', allowed, actual);
    AcceptedCleans(o, e', allowed, actual);
  }

  /** The order and the repeats of the diff do not matter. */
  lemma {:induction false} DiffIsASet(o: Oracles, e: WorkerEvidence, allowed: seq<string>, actual: seq<string>,
                                      other: seq<string>)
    requires forall p :: Mentions(actual, p) <==> Mentions(other, p)
    ensures var v, w := Validate(o, e, allowed, Some(actual)), Validate(o, e, allowed, Some(other));
            (v.Accepted? <==> w.Accepted?) && (v.Accepted? ==> v == w)
  {
    AcceptedIff(o, e, allowed, Some(actual));
    AcceptedIff(o, e, allowed, Some(other));
    if Validate(o, e, allowed, Some(actual)).Accepted? {
      AcceptedCleans(o, e, allowed, Some(actual));
      AcceptedCleans(o, e, allowed, Some(other));
    }
  }

  /** Allowing more never turns acceptance into rejection, nor changes what is accepted. */
  lemma {:induction false} AllowingMoreKeeps(o: Oracles, e: WorkerEvidence, allowed: seq<string>, more: seq<string>,
                                             actual: Option<seq<string>>)
    requires forall a :: a in allowed ==> a in more
    requires Validate(o, e, allowed, actual).Accepted?
    ensures Validate(o, e, more, actual) == Validate(o, e, allowed, actual)
  {
    AcceptedIff(o, e, allowed, actual);
    UsableGrows(allowed, more);
    forall i | 0 <= i < |e.changed| ensures Good(o.glob, e.changed[i], Usable(more)) {
      assert Good(o.glob, e.changed[i], Usable(allowed));
      var k :| 0 <= k < |Usable(allowed)| && Matches(o.glob, Normal(e.changed[i]), Usable(allowed)[k]);
      assert Usable(allowed)[k] in Usable(more);
      var m :| 0 <= m < |Usable(more)| && Usable(more)[m] == Usable(allowed)[k];
    }
    assert Usable(allowed)[0] in Usable(more);
    AcceptedIff(o, e, more, actual);
    AcceptedCleans(o, e, allowed, actual);
    AcceptedCleans(o, e, more, actual);
    CleanValue(o.glob, e.changed, Usable(allowed), Usable(more));
  }

  lemma {:induction false} UsableGrows(allowed: seq<string>, more: seq<string>)
    requires forall a :: a in allowed ==> a in more
    ensures forall a :: a in Usable(allowed) ==> a in Usable(more)
  {
    forall a | a in Usable(allowed) ensures a in Usable(more) {
      var i :| 0 <= i < |allowed| && !Blank(allowed[i]) && Strip(allowed[i]) == a;
      assert allowed[i] in more;
    }
  }

  // ------------------------------------------------------------- where accepted paths lie

  /** At this place the path has a step up: two dots between slashes or an end of the path. */
  predicate StepAt(path: string, i: nat) {
    && i + 2 <= |path| && path[i] == '.' && path[i + 1] == '.'
    && (i == 0 || path[i - 1] == '/')
    && (i + 2 == |path| || path[i + 2] == '/')
  }

  function SlashIn(path: string): (n: nat)
    ensures n <= |path| && '/' !in path[..n] && (n < |path| ==> path[n] == '/')
  {
    if path == "" || path[0] == '/' then 0 else 1 + SlashIn(path[1..])
  }

  lemma {:induction false} PartsStep(c: char, rest: string, head: string, more: seq<string>)
    requires c != '/' && Parts(rest) == [head] + more
    ensures Parts([c] + rest) == [[c] + head] + more
  {
    assert ([c] + rest)[1..] == rest;
    assert Parts(rest)[0] == head && Parts(rest)[1..] == more;
  }

  lemma {:induction false} FirstPart(path: string)
    ensures var n := SlashIn(path);
            Parts(path) == if n == |path| then [path] else [path[..n]] + Parts(path[n + 1..])
  {
    if path != "" && path[0] != '/' {
      var c, rest := path[0], path[1..];
      var n := SlashIn(rest);
      FirstPart(rest);
      assert path == [c] + rest;
      if n == |rest| {
        PartsStep(c, rest, rest, []);
      } else {
        PartsStep(c, rest, rest[..n], Parts(rest[n + 1..]));
        assert path[..n + 1] == [c] + rest[..n] && path[n + 2..] == rest[n + 1..];
      }
    }
  }

  lemma {:induction false} StepsShift(path: string, n: nat, i: nat)
    requires n < |path| && path[n] == '/'
    ensures StepAt(path[n + 1..], i) <==> StepAt(path, n + 1 + i)
  {}

  lemma {:induction false} StepAtFront(path: string, n: nat)
    requires n == SlashIn(path)
    ensures StepAt(path, 0) <==> path[..n] == ".."
    ensures forall i :: 0 < i <= n ==> !StepAt(path, i)
  {
    forall i | 0 <= i < n ensures path[i] != '/' {
      assert path[i] == path[..n][i];
    }
    if path[..n] == ".." {
      assert n == 2 && path[0] == path[..n][0] && path[1] == path[..n][1];
    }
    if StepAt(path, 0) {
      assert n == 2;
    }
  }

  lemma {:induction false} PartsStepUp(path: string)
    ensures ".." in Parts(path) <==> exists i: nat :: StepAt(path, i)
    decreases |path|
  {
    var n := SlashIn(path);
    FirstPart(path);
    StepAtFront(path, n);
    if n == |path| {
      assert path[..n] == path;
      if i: nat :| StepAt(path, i) {
        assert i == 0;
      }
    } else {
      var rest := path[n + 1..];
      PartsStepUp(rest);
      if i: nat :| StepAt(rest, i) {
        StepsShift(path, n, i);
      }
      if i: nat :| StepAt(path, i) && i > n {
        StepsShift(path, n, i - n - 1);
        assert StepAt(rest, i - n - 1);
      }
    }
  }

  /** A safe path is a relative one, not the directory itself, with no step up anywhere. */
  lemma {:induction false} SafeMeans(path: string)
    ensures Safe(path) <==> path != "" && path[0] != '/' && path != "." && forall i: nat :: !StepAt(path, i)
  {
    PartsStepUp(path);
  }

  /** Steps up at the end, at the start and in the middle are all refused. */
  lemma {:induction false} StepsUpAreUnsafe(a: string, b: string)
    ensures !Safe("..") && !Safe("../" + b) && !Safe(a + "/..") && !Safe(a + "/../" + b)
  {
    SafeMeans("..");
    SafeMeans("../" + b);
    SafeMeans(a + "/..");
    SafeMeans(a + "/../" + b);
    assert StepAt("..", 0) && StepAt("../" + b, 0);
    assert StepAt(a + "/..", |a| + 1) && StepAt(a + "/../" + b, |a| + 1);
  }

  /** The path is this directory or file, lies under it, or matches it as a pattern. */
  ghost predicate Within(glob: Glob, path: string, allowed: string) {
    var base := Pattern(Strip(allowed));
    path == base || base + "/" <= path || glob(path, base)
  }

  ghost predicate Confined(glob: Glob, path: string, allowed: seq<string>) {
    && path != "" && path[0] != '/' && path != "." && '\\' !in path
    && (forall i: nat :: !StepAt(path, i))
    && exists i :: 0 <= i < |allowed| && Within(glob, path, allowed[i])
  }

  /** Every path of accepted evidence is relative, uses forward slashes only, never steps up,
      and lies within an allowed path; and so does every path of the diff it was checked
      against. */
  lemma {:induction false} AcceptedStaysInside(o: Oracles, e: WorkerEvidence, allowed: seq<string>,
                                               actual: Option<seq<string>>)
    requires Validate(o, e, allowed, actual).Accepted?
    ensures forall p :: p in Validate(o, e, allowed, actual).evidence.changed ==> Confined(o.glob, p, allowed)
    ensures actual.Some? ==> forall a :: a in actual.value && a != "" ==> Confined(o.glob, Normal(a), allowed)
  {
    AcceptedIff(o, e, allowed, actual);
    AcceptedCleans(o, e, allowed, actual);
    var changed := Validate(o, e, allowed, actual).evidence.changed;
    forall p | Names(e.changed, p) ensures Confined(o.glob, p, allowed) {
      var k :| 0 <= k < |e.changed| && Normals(e.changed)[k] == p;
      GoodIsConfined(o.glob, e.changed[k], allowed);
    }
    if actual.Some? {
      forall a | a in actual.value && a != "" ensures Confined(o.glob, Normal(a), allowed) {
        assert Mentions(actual.value, Normal(a));
      }
    }
  }

  lemma {:induction false} GoodIsConfined(glob: Glob, raw: string, allowed: seq<string>)
    requires Good(glob, raw, Usable(allowed))
    ensures Confined(glob, Normal(raw), allowed)
  {
    var p, usable := Normal(raw), Usable(allowed);
    SafeMeans(p);
    NormalTwice(raw);
    TrimInside(Slashes(raw));
    var k :| 0 <= k < |usable| && Matches(glob, p, usable[k]);
    assert usable[k] in usable;
    var i :| 0 <= i < |allowed| && !Blank(allowed[i]) && Strip(allowed[i]) == usable[k];
    NoBackslash(raw);
    assert Within(glob, p, allowed[i]);
  }

  lemma {:induction false} NoBackslash(raw: string)
    ensures '\\' !in Normal(raw) && Slashes(Normal(raw)) == Normal(raw)
  {
    var s, p := Slashes(raw), Normal(raw);
    TrimInside(s);
    forall i | 0 <= i < |p| ensures p[i] != '\\' {
      assert p[i] in s;
    }
  }

  /** A name that only begins like an allowed path is not within it unless the glob says so. */
  lemma {:induction false} SiblingsAreOutside(glob: Glob, base: string, c: char, rest: string)
    requires base != "" && Last(base) !in {'/', '\\'} && '\\' !in base && Strip(base) == base
    requires c !in {'/', '\\'} && !glob(base + [c] + rest, base)
    ensures !Within(glob, base + [c] + rest, base)
  {
    assert Slashes(base) == base && DropSlashes(base) == base;
    var path := base + [c] + rest;
    assert path[|base|] == c;
  }

  /** A lower-case letter or a digit. */
  predicate Alphanumeric(c: char) {
    'a' <= c <= 'z' || '0' <= c <= '9'
  }

  /** Accepted evidence names an executor, and complete evidence lists checks, none of which
      reports a failure, and concerns. */
  lemma {:induction false} AcceptedSaysEnough(o: Oracles, e: WorkerEvidence, allowed: seq<string>,
                                              actual: Option<seq<string>>)
    requires Validate(o, e, allowed, actual).Accepted?
    ensures var e' := Validate(o, e, allowed, actual).evidence;
            && e'.provider.Some? && 1 <= |e'.provider.value| <= 64 && Alphanumeric(e'.provider.value[0])
            && (forall c :: c in e'.provider.value ==> Alphanumeric(c) || c == '.' || c == '_' || c == '-')
            && (e'.status == "complete" ==>
                  e'.checks != [] && e'.concerns != [] && forall c :: c in e'.checks ==> !o.unsuccessful(c))
  {
    AcceptedIff(o, e, allowed, actual);
    AcceptedCleans(o, e, allowed, actual);
    if e.status == "complete" {
      forall c | c in e.checks ensures !o.unsuccessful(c) {
        var i :| 0 <= i < |e.checks| && e.checks[i] == c;
      }
    }
  }

  // ------------------------------------------------------------- what a refusal names

  /** Some path of the list is `raw` and fails, cleaned, in the stated way. */
  predicate BadPath(glob: Glob, paths: seq<string>, usable: seq<string>, why: Refusal) {
    match why
    case Unsafe(raw) => raw in paths && !Safe(Normal(raw))
    case Outside(path) => Names(paths, path) && Safe(path) && !Allowed(glob, path, usable)
    case _ => false
  }

  lemma {:induction false} BadPathStays(glob: Glob, paths: seq<string>, usable: seq<string>, why: Refusal)
    requires paths != [] && BadPath(glob, paths[..|paths| - 1], usable, why)
    ensures BadPath(glob, paths, usable, why)
  {
    match why
    case Outside(path) => NamesSplit(paths, path);
    case _ =>
  }

  lemma {:induction false} LastPathIsBad(glob: Glob, paths: seq<string>, usable: seq<string>)
    requires paths != []
    ensures !Safe(Normal(Last(paths))) ==> BadPath(glob, paths, usable, Unsafe(Last(paths)))
    ensures Safe(Normal(Last(paths))) && !Allowed(glob, Normal(Last(paths)), usable) ==>
              BadPath(glob, paths, usable, Outside(Normal(Last(paths))))
  {
    NamesSplit(paths, Normal(Last(paths)));
  }

  lemma {:induction false} CleanRefusal(glob: Glob, paths: seq<string>, usable: seq<string>)
    requires CleanPaths(glob, paths, usable).PathsRefused?
    ensures BadPath(glob, paths, usable, CleanPaths(glob, paths, usable).why)
  {
    var front := paths[..|paths| - 1];
    match CleanPaths(glob, front, usable)
    case PathsRefused(why) =>
      CleanRefusal(glob, front, usable);
      BadPathStays(glob, paths, usable, why);
    case Clean(_) => LastPathIsBad(glob, paths, usable);
  }

  /** The fault that a refusal names. */
  ghost predicate Fault(o: Oracles, e: WorkerEvidence, allowed: seq<string>, actual: Option<seq<string>>,
                        why: Refusal)
  {
    match why
    case NoProvider => e.provider == None || e.provider == Some("")
    case InvalidProvider => e.provider.Some? && !ExecutorId(e.provider.value)
    case NoAllowedPaths => forall i :: 0 <= i < |allowed| ==> Blank(allowed[i])
    case NoChecks => e.status == "complete" && e.checks == []
    case NoConcerns => e.status == "complete" && e.concerns == []
    case UnsuccessfulCheck => e.status == "complete" && exists c :: c in e.checks && o.unsuccessful(c)
    case DiffMismatch => actual.Some? && !ClaimsDiff(e.changed, actual.value)
    case _ =>
      || BadPath(o.glob, e.changed, Usable(allowed), why)
      || (actual.Some? && BadPath(o.glob, Mentioned(actual.value), Usable(allowed), why))
  }

  /** Refused evidence has the fault that its refusal names. */
  lemma {:induction false} RefusalMeans(o: Oracles, e: WorkerEvidence, allowed: seq<string>,
                                        actual: Option<seq<string>>)
    requires Validate(o, e, allowed, actual).Refused?
    ensures Fault(o, e, allowed, actual, Validate(o, e, allowed, actual).why)
  {
    var usable := Usable(allowed);
    if usable == [] {
      forall i | 0 <= i < |allowed| ensures Blank(allowed[i]) {
        assert Strip(allowed[i]) !in usable;
      }
    } else if CleanPaths(o.glob, e.changed, usable).PathsRefused? {
      CleanRefusal(o.glob, e.changed, usable);
    } else if actual.Some? {
      var cleaned := CleanPaths(o.glob, e.changed, usable).paths;
      DiffErrorIff(o.glob, cleaned, e.changed, allowed, actual.value);
      if CleanPaths(o.glob, Mentioned(actual.value), usable).PathsRefused? {
        CleanRefusal(o.glob, Mentioned(actual.value), usable);
      }
    }
  }
}
