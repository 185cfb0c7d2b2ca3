/** Small shared vocabulary: optional values and the lexicographic order that
    both runtimes use to compare strings. */
module Common {

  datatype Option<+T> = None | Some(value: T)

  function Last<T>(s: seq<T>): T
    requires s != []
  {
    s[|s| - 1]
  }

  /** Strict lexicographic order on sequences of character codes. */
  predicate LexLess(a: seq<int>, b: seq<int>) {
    b != [] && (a == [] || a[0] < b[0] || (a[0] == b[0] && LexLess(a[1..], b[1..])))
  }

  lemma {:induction false} LexTrichotomy(a: seq<int>, b: seq<int>)
    ensures LexLess(a, b) || a == b || LexLess(b, a)
    ensures !(LexLess(a, b) && LexLess(b, a))
    ensures LexLess(a, b) ==> a != b
  {
    if a != [] && b != [] && a[0] == b[0] {
      LexTrichotomy(a[1..], b[1..]);
      assert a == [a[0]] + a[1..] && b == [b[0]] + b[1..];
    }
  }

  lemma {:induction false} LexTransitive(a: seq<int>, b: seq<int>, c: seq<int>)
    requires LexLess(a, b) && LexLess(b, c)
    ensures LexLess(a, c)
  {
    if a != [] && a[0] == b[0] == c[0] {
      LexTransitive(a[1..], b[1..], c[1..]);
    }
  }

  /** The first k codes agree, and then `a` ends or has the smaller code. */
  predicate SmallerAt(a: seq<int>, b: seq<int>, k: nat) {
    && k <= |a| && k < |b| && a[..k] == b[..k]
    && (k == |a| || a[k] < b[k])
  }

  lemma {:induction false} SmallerShift(a: seq<int>, b: seq<int>, k: nat)
    requires a != [] && b != [] && a[0] == b[0]
    ensures SmallerAt(a[1..], b[1..], k) <==> SmallerAt(a, b, k + 1)
  {
    if k < |a| && k < |b| {
      assert a[..k + 1] == [a[0]] + a[1..][..k] && b[..k + 1] == [b[0]] + b[1..][..k];
      assert a[1..][..k] == a[..k + 1][1..] && b[1..][..k] == b[..k + 1][1..];
    }
  }

  lemma {:induction false} SmallerLater(a: seq<int>, b: seq<int>, k: nat)
    requires k > 0
    ensures SmallerAt(a, b, k) ==> a != [] && b != [] && a[0] == b[0]
  {
    if SmallerAt(a, b, k) {
      assert a[..k][0] == a[0] && b[..k][0] == b[0];
    }
  }

  /** The order is decided at the first place where the two differ; a proper prefix is smaller. */
  lemma {:induction false} LexMeans(a: seq<int>, b: seq<int>)
    ensures LexLess(a, b) <==> exists k: nat :: SmallerAt(a, b, k)
  {
    if a == [] || b == [] || a[0] != b[0] {
      if b != [] && (a == [] || a[0] < b[0]) {
        assert SmallerAt(a, b, 0);
      }
      forall k: nat | k > 0 ensures !SmallerAt(a, b, k) {
        SmallerLater(a, b, k);
      }
    } else {
      LexMeans(a[1..], b[1..]);
      if k: nat :| SmallerAt(a[1..], b[1..], k) {
        SmallerShift(a, b, k);
      }
      if k: nat :| SmallerAt(a, b, k) {
        SmallerShift(a, b, k - 1);
      }
    }
  }

  /** The elements that do not occur earlier, in order. */
  function Firsts<T(==)>(s: seq<T>): seq<T> {
    if s == [] then []
    else
      var front := s[..|s| - 1];
      Firsts(front) + if Last(s) in front then [] else [Last(s)]
  }

  function Map<T, U>(f: T -> U, s: seq<T>): (r: seq<U>)
    ensures |r| == |s| && forall i :: 0 <= i < |s| ==> r[i] == f(s[i])
  {
    seq(|s|, i requires 0 <= i < |s| => f(s[i]))
  }

  lemma {:induction false} MapCons<T, U>(f: T -> U, s: seq<T>)
    requires s != []
    ensures Map(f, s) == [f(s[0])] + Map(f, s[1..])
  {}

  lemma {:induction false} MapSnoc<T, U>(f: T -> U, s: seq<T>)
    requires s != []
    ensures Map(f, s) == Map(f, s[..|s| - 1]) + [f(Last(s))]
  {}

  /** Accumulates from the left. */
  function Fold<T, A>(add: (A, T) -> A, zero: A, s: seq<T>): A {
    if s == [] then zero else add(Fold(add, zero, s[..|s| - 1]), Last(s))
  }

  ghost predicate Commutes<T(!new), A(!new)>(add: (A, T) -> A) {
    forall t, a, b :: add(add(t, a), b) == add(add(t, b), a)
  }

  ghost predicate NoRepeats<T(!new)>(s: seq<T>) {
    forall i, j :: 0 <= i < j < |s| ==> s[i] != s[j]
  }

  function Without<T>(s: seq<T>, i: nat): seq<T>
    requires i < |s|
  {
    s[..i] + s[i + 1..]
  }

  lemma {:induction false} FoldSnoc<T, A>(add: (A, T) -> A, zero: A, s: seq<T>, x: T)
    ensures Fold(add, zero, s + [x]) == add(Fold(add, zero, s), x)
  {
    assert (s + [x])[..|s|] == s;
  }

  lemma {:induction false} WithoutSnoc<T>(s: seq<T>, i: nat)
    requires i < |s| - 1
    ensures Without(s, i) == Without(s[..|s| - 1], i) + [Last(s)]
  {}

  /** With a commuting operation any element may be taken last. */
  lemma {:induction false} FoldWithout<T(!new), A(!new)>(add: (A, T) -> A, zero: A, s: seq<T>, i: nat)
    requires Commutes(add) && i < |s|
    ensures Fold(add, zero, s) == add(Fold(add, zero, Without(s, i)), s[i])
  {
    var front, last := s[..|s| - 1], Last(s);
    if i == |s| - 1 {
      assert Without(s, i) == front;
    } else {
      WithoutSnoc(s, i);
      FoldSnoc(add, zero, Without(front, i), last);
      FoldWithout(add, zero, front, i);
    }
  }

  lemma {:induction false} InWithout<T(!new)>(s: seq<T>, i: nat, x: T)
    requires NoRepeats(s) && i < |s|
    ensures x in Without(s, i) <==> x in s && x != s[i]
  {
    var rest := Without(s, i);
    if x in s && x != s[i] {
      var k :| 0 <= k < |s| && s[k] == x;
      assert rest[if k < i then k else k - 1] == x;
    }
    if k :| 0 <= k < |rest| && rest[k] == x {
      assert s[if k < i then k else k + 1] == x;
    }
  }

  /** Then the result depends only on the set of elements, if none is repeated. */
  lemma {:induction false} FoldIsOverTheSet<T(!new), A(!new)>(add: (A, T) -> A, zero: A, xs: seq<T>, ys: seq<T>)
    requires Commutes(add) && NoRepeats(xs) && NoRepeats(ys) && forall x :: x in xs <==> x in ys
    ensures Fold(add, zero, xs) == Fold(add, zero, ys) && |xs| == |ys|
  {
    if xs == [] {
      SameElementsEmpty(xs, ys);
    } else {
      var front, x := xs[..|xs| - 1], Last(xs);
      assert x in ys;
      var j :| 0 <= j < |ys| && ys[j] == x;
      assert front == Without(xs, |xs| - 1);
      forall y ensures y in front <==> y in Without(ys, j) {
        InWithout(xs, |xs| - 1, y);
        InWithout(ys, j, y);
      }
      FoldWithout(add, zero, ys, j);
      FoldIsOverTheSet(add, zero, front, Without(ys, j));
    }
  }

  /** The code units that JavaScript's trim removes. */
  predicate TrimmedUnit(c: int) {
    || 0x09 <= c <= 0x0D || c == 0x20 || c == 0xA0 || c == 0x1680 || 0x2000 <= c <= 0x200A
    || c in {0x2028, 0x2029, 0x202F, 0x205F, 0x3000, 0xFEFF}
  }

  /** The decimal text of a number. */
  function Decimal(n: nat): (s: string)
    ensures forall i :: 0 <= i < |s| ==> '0' <= s[i] <= '9'
    ensures s != [] && (|s| == 1 <==> n < 10)
  {
    if n < 10 then ['0' + n as char] else Decimal(n / 10) + ['0' + (n % 10) as char]
  }

  lemma {:induction false} DecimalInjective(m: nat, n: nat)
    requires Decimal(m) == Decimal(n)
    ensures m == n
  {
    var s, t := Decimal(m), Decimal(n);
    assert Last(s) == '0' + (m % 10) as char && Last(t) == '0' + (n % 10) as char;
    if m >= 10 && n >= 10 {
      assert s[..|s| - 1] == Decimal(m / 10) && t[..|t| - 1] == Decimal(n / 10);
      DecimalInjective(m / 10, n / 10);
    }
  }

  /** The number that decimal digits stand for. */
  function NumberOf(s: string): int {
    if s == "" then 0 else NumberOf(s[..|s| - 1]) * 10 + (Last(s) as int - '0' as int)
  }

  lemma {:induction false} DecimalReads(n: nat)
    ensures NumberOf(Decimal(n)) == n && (n > 0 ==> Decimal(n)[0] != '0')
  {
    var s := Decimal(n);
    if n < 10 {
      assert s[..0] == "";
    } else {
      DecimalReads(n / 10);
      assert s[..|s| - 1] == Decimal(n / 10);
    }
  }

  function IntText(n: int): string {
    if n < 0 then "-" + Decimal(-n) else Decimal(n)
  }

  ghost predicate LexSorted(xs: seq<seq<int>>) {
    forall i, j :: 0 <= i < j < |xs| ==> LexLess(xs[i], xs[j])
  }

  lemma {:induction false} SameElementsEmpty<T>(xs: seq<T>, ys: seq<T>)
    requires forall x :: x in xs <==> x in ys
    ensures xs == [] <==> ys == []
  {
    if xs != [] {
      assert xs[0] in ys;
    }
    if ys != [] {
      assert ys[0] in xs;
    }
  }

  /** Strictly sorted sequences with the same elements are equal. */
  lemma {:induction false} LexSortedUnique(xs: seq<seq<int>>, ys: seq<seq<int>>)
    requires LexSorted(xs) && LexSorted(ys)
    requires forall x :: x in xs <==> x in ys
    ensures xs == ys
  {
    if xs == [] || ys == [] {
      SameElementsEmpty(xs, ys);
    } else {
      assert xs[0] in ys && ys[0] in xs;
      LexTrichotomy(xs[0], ys[0]);
      LexTrichotomy(xs[0], xs[0]);
      assert xs[0] == ys[0];
      forall x ensures x in xs[1..] <==> x in ys[1..] {
        assert x in xs <==> x == xs[0] || x in xs[1..];
        assert x in ys <==> x == ys[0] || x in ys[1..];
      }
      LexSortedUnique(xs[1..], ys[1..]);
    }
  }
}
