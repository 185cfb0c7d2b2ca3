/** Reading a paginated model catalog (packages/policy/src/model-catalog.ts) from a server
    that answers each cursor with one page.  Parsing a page is part of the server here: a
    payload that does not parse, or a failed fetch, is a bad page. */
module ModelCatalog {
  import opened Common

  type Cursor = Option<string>

  datatype Page<M> = BadPage | Page(models: seq<M>, next: Cursor)

  type Server<!M> = Cursor -> Page<M>

  datatype Outcome<M> = Catalog(models: seq<M>) | InvalidPage | RepeatedCursor | OverBudget

  const BUDGET := 20

  /** Where following `next` from the first page leads: the cursor of the k-th request, or
      how the walk stopped before it. */
  datatype Place = At(cursor: Cursor) | Ended | Broken

  function Walk<M>(server: Server<M>, k: nat): Place {
    if k == 0 then At(None)
    else
      match Walk(server, k - 1)
      case At(cursor) =>
        (match server(cursor)
         case BadPage => Broken
         case Page(_, None) => Ended
         case Page(_, next) => At(next))
      case stopped => stopped
  }

  /** The models of the first k pages of the walk, in order. */
  function Models<M>(server: Server<M>, k: nat): seq<M> {
    if k == 0 then []
    else
      Models(server, k - 1) +
      match Walk(server, k - 1)
      case At(cursor) => (match server(cursor) case Page(models, _) => models case BadPage => [])
      case _ => []
  }

  /** The walk makes exactly n requests, and the last one's page ends it. */
  predicate EndsAfter<M>(server: Server<M>, n: nat) {
    n > 0 && Walk(server, n - 1).At? && Walk(server, n) == Ended
  }

  predicate BreaksAfter<M>(server: Server<M>, n: nat) {
    n > 0 && Walk(server, n - 1).At? && Walk(server, n) == Broken
  }

  /** Two requests among the first n would carry the same cursor. */
  predicate RepeatsWithin<M>(server: Server<M>, n: nat) {
    exists i, j :: 0 <= i < j <= n && Walk(server, i).At? && Walk(server, i) == Walk(server, j)
  }

  lemma {:induction false} StoppedStays<M>(server: Server<M>, j: nat, k: nat)
    requires j <= k && Walk(server, k).At?
    ensures Walk(server, j).At?
    decreases k
  {
    if j < k {
      StoppedStays(server, j, k - 1);
    }
  }

  lemma {:induction false} StopsOnce<M>(server: Server<M>, n: nat, k: nat)
    requires n <= k && !Walk(server, n).At?
    ensures Walk(server, k) == Walk(server, n)
    decreases k
  {
    if n < k {
      StopsOnce(server, n, k - 1);
    }
  }

  lemma {:induction false} SamePlaceSameFuture<M>(server: Server<M>, i: nat, j: nat, m: nat)
    requires Walk(server, i) == Walk(server, j)
    ensures Walk(server, i + m) == Walk(server, j + m)
  {
    if m > 0 {
      SamePlaceSameFuture(server, i, j, m - 1);
      assert i + m - 1 == i + (m - 1) && j + m - 1 == j + (m - 1);
    }
  }

  /** A walk that comes back to a cursor never ends. */
  lemma {:induction false} RepeatedNeverEnds<M>(server: Server<M>, i: nat, j: nat, k: nat)
    requires i < j && Walk(server, i).At? && Walk(server, i) == Walk(server, j)
    ensures Walk(server, k).At?
    decreases k
  {
    if k <= j {
      StoppedStays(server, k, j);
    } else {
      SamePlaceSameFuture(server, i, j, k - j);
      RepeatedNeverEnds(server, i, j, i + (k - j));
      assert j + (k - j) == k;
    }
  }

  /** What a reader should answer within the budget. */
  ghost predicate Answers<M(!new)>(server: Server<M>, outcome: Outcome<M>) {
    match outcome
    case Catalog(models) => exists n: nat :: n <= BUDGET && EndsAfter(server, n) && models == Models(server, n)
    case InvalidPage => exists n: nat :: n <= BUDGET && BreaksAfter(server, n)
    case RepeatedCursor => RepeatsWithin(server, BUDGET)
    case OverBudget => Walk(server, BUDGET).At? && !RepeatsWithin(server, BUDGET)
  }

  /** The requests so far followed the walk, the next one will carry a new cursor, and the
      set holds every cursor there was. */
  ghost predicate Followed<M>(server: Server<M>, asked: seq<Cursor>, cursor: Cursor, cursors: set<string>) {
    && (forall k :: 0 <= k < |asked| ==> Walk(server, k) == At(asked[k]))
    && Walk(server, |asked|) == At(cursor)
    && Distinct(asked + [cursor])
    && (forall c :: c in cursors <==> Some(c) in asked + [cursor])
  }

  ghost predicate Distinct(cursors: seq<Cursor>) {
    forall i, j :: 0 <= i < j < |cursors| ==> cursors[i] != cursors[j]
  }

  lemma {:induction false} NewCursor<M>(server: Server<M>, asked: seq<Cursor>, cursor: Cursor, cursors: set<string>,
                                        next: string)
    requires Followed(server, asked, cursor, cursors) && server(cursor).Page? && server(cursor).next == Some(next)
    requires next !in cursors
    ensures Followed(server, asked + [cursor], Some(next), cursors + {next})
  {
    var before := asked + [cursor];
    assert Some(next) !in before;
    assert Walk(server, |before|) == At(Some(next));
    forall c ensures c in cursors + {next} <==> Some(c) in before + [Some(next)] {
      assert c in cursors <==> Some(c) in before;
    }
  }

  lemma {:induction false} OldCursor<M>(server: Server<M>, asked: seq<Cursor>, cursor: Cursor, cursors: set<string>,
                                        next: string)
    requires Followed(server, asked, cursor, cursors) && server(cursor).Page? && server(cursor).next == Some(next)
    requires next in cursors && |asked| < BUDGET
    ensures RepeatsWithin(server, BUDGET)
  {
    var before := asked + [cursor];
    var k :| 0 <= k < |before| && before[k] == Some(next);
    assert Walk(server, k) == At(before[k]) == Walk(server, |before|);
  }

  lemma {:induction false} NoneRepeated<M>(server: Server<M>, asked: seq<Cursor>, cursor: Cursor, cursors: set<string>)
    requires Followed(server, asked, cursor, cursors)
    ensures !RepeatsWithin(server, |asked|)
  {
    var before := asked + [cursor];
    forall i, j | 0 <= i < j <= |asked| ensures Walk(server, i) != Walk(server, j) {
      assert Walk(server, i) == At(before[i]) && Walk(server, j) == At(before[j]);
    }
  }

  /** Follows `next` for at most twenty pages; the requests it made carried distinct cursors. */
  method ReadModelCatalog<M(!new)>(server: Server<M>) returns (outcome: Outcome<M>, asked: seq<Cursor>)
    ensures Answers(server, outcome)
    ensures |asked| <= BUDGET && Distinct(asked)
    ensures forall k :: 0 <= k < |asked| ==> Walk(server, k) == At(asked[k])
  {
    var all: seq<M> := [];
    var cursors: set<string> := {};
    var cursor: Cursor := None;
    asked := [];
    for i := 0 to BUDGET
      invariant |asked| == i && all == Models(server, i) && Followed(server, asked, cursor, cursors)
    {
      var page := server(cursor);
      match page {
        case BadPage =>
          assert BreaksAfter(server, i + 1);
          AskedIsDistinct(server, asked, cursor, cursors);
          return InvalidPage, asked + [cursor];
        case Page(models, next) =>
          assert Models(server, i + 1) == all + models;
          all := all + models;
          if next == None {
            assert EndsAfter(server, i + 1);
            AskedIsDistinct(server, asked, cursor, cursors);
            return Catalog(all), asked + [cursor];
          }
          if next.value in cursors {
            OldCursor(server, asked, cursor, cursors, next.value);
            AskedIsDistinct(server, asked, cursor, cursors);
            return RepeatedCursor, asked + [cursor];
          }
          NewCursor(server, asked, cursor, cursors, next.value);
          asked := asked + [cursor];
          cursor := next;
          cursors := cursors + {next.value};
      }
    }
    NoneRepeated(server, asked, cursor, cursors);
    outcome := OverBudget;
  }

  lemma {:induction false} AskedIsDistinct<M>(server: Server<M>, asked: seq<Cursor>, cursor: Cursor,
                                              cursors: set<string>)
    requires Followed(server, asked, cursor, cursors)
    ensures Distinct(asked + [cursor])
    ensures forall k :: 0 <= k < |asked + [cursor]| ==> Walk(server, k) == At((asked + [cursor])[k])
  {}

  /** A walk stops at one place only. */
  lemma {:induction false} OneStop<M>(server: Server<M>, m: nat, n: nat)
    requires EndsAfter(server, m) || BreaksAfter(server, m)
    requires EndsAfter(server, n) || BreaksAfter(server, n)
    ensures m == n
  {
    if m < n {
      StopsOnce(server, m, n - 1);
    } else if n < m {
      StopsOnce(server, n, m - 1);
    }
  }

  /** The outcomes exclude each other: the catalog is returned exactly when the walk ends
      within the budget, and then it is the concatenation of all its pages; a repeated
      cursor is reported only of a walk that never ends. */
  lemma {:induction false} OutcomeMeans<M(!new)>(server: Server<M>, outcome: Outcome<M>)
    requires Answers(server, outcome)
    ensures outcome.Catalog? <==> exists n: nat :: n <= 20 && EndsAfter(server, n)
    ensures outcome.Catalog? ==> forall n: nat :: EndsAfter(server, n) ==> outcome.models == Models(server, n)
    ensures outcome.InvalidPage? <==> exists n: nat :: n <= BUDGET && BreaksAfter(server, n)
    ensures outcome.RepeatedCursor? <==> RepeatsWithin(server, BUDGET)
    ensures outcome.RepeatedCursor? ==> forall k: nat :: Walk(server, k).At?
  {
    StoppedIsStopped(server);
    if RepeatsWithin(server, BUDGET) {
      RepeatsForever(server);
    }
    match outcome
    case Catalog(models) =>
      var m: nat :| m <= BUDGET && EndsAfter(server, m) && models == Models(server, m);
      StopsHere(server, m);
    case InvalidPage =>
      var m: nat :| m <= BUDGET && BreaksAfter(server, m);
      StopsHere(server, m);
    case _ =>
  }

  lemma {:induction false} StoppedIsStopped<M(!new)>(server: Server<M>)
    ensures forall n: nat :: n <= BUDGET && (EndsAfter(server, n) || BreaksAfter(server, n)) ==>
              !Walk(server, BUDGET).At?
  {
    forall n: nat | n <= BUDGET && (EndsAfter(server, n) || BreaksAfter(server, n)) ensures !Walk(server, BUDGET).At? {
      StopsOnce(server, n, BUDGET);
    }
  }

  lemma {:induction false} RepeatsForever<M(!new)>(server: Server<M>)
    requires RepeatsWithin(server, BUDGET)
    ensures forall k: nat :: Walk(server, k).At?
  {
    var i: nat, j: nat :| i < j <= BUDGET && Walk(server, i).At? && Walk(server, i) == Walk(server, j);
    forall k: nat ensures Walk(server, k).At? {
      RepeatedNeverEnds(server, i, j, k);
    }
  }

  lemma {:induction false} StopsHere<M>(server: Server<M>, m: nat)
    requires EndsAfter(server, m) || BreaksAfter(server, m)
    ensures forall n: nat :: EndsAfter(server, n) || BreaksAfter(server, n) ==> n == m
  {
    forall n: nat | EndsAfter(server, n) || BreaksAfter(server, n) ensures n == m {
      OneStop(server, m, n);
    }
  }

  lemma {:induction false} ModelsGrow<M>(server: Server<M>, k: nat, n: nat)
    requires k <= n
    ensures Models(server, k) <= Models(server, n)
    decreases n
  {
    if k < n {
      ModelsGrow(server, k, n - 1);
    }
  }

  /** The catalog lists the pages in the order of their requests: each page's models stand, in
      its own order, right after those of the pages before it. */
  lemma {:induction false} PagesInOrder<M>(server: Server<M>, k: nat, n: nat, cursor: Cursor)
    requires k < n && Walk(server, k) == At(cursor) && server(cursor).Page?
    ensures var from, page := |Models(server, k)|, server(cursor).models;
            && from + |page| <= |Models(server, n)|
            && Models(server, n)[from..from + |page|] == page
            && Models(server, 0) == []
  {
    var all := Models(server, n);
    assert Models(server, k + 1) == Models(server, k) + server(cursor).models;
    ModelsGrow(server, k + 1, n);
    assert all[..|Models(server, k + 1)|] == Models(server, k + 1);
  }

  /** What each request's page does to the walk: a bad page breaks it, a page without a cursor
      ends it, and any other is followed. */
  lemma {:induction false} WalkFollows<M>(server: Server<M>, k: nat, cursor: Cursor)
    requires Walk(server, k) == At(cursor)
    ensures server(cursor).BadPage? <==> BreaksAfter(server, k + 1)
    ensures server(cursor).Page? && server(cursor).next == None <==> EndsAfter(server, k + 1)
    ensures server(cursor).Page? && server(cursor).next.Some? ==> Walk(server, k + 1) == At(server(cursor).next)
  {}
}
