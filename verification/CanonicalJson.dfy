/** The canonical JSON printer (packages/policy/src/decisions.ts): objects print with
    their keys sorted by UTF-16 code units (section 3.2.3 of RFC 8785), at every depth.
    Strings are sequences of UTF-16 code units, quoted as JSON.stringify quotes them.  A
    number stands for its shortest decimal text, which determines it. */
module CanonicalJson {
  import opened Common

  type CodeUnit = n: int | 0 <= n < 0x10000

  type Text = seq<CodeUnit>

  datatype Field = Field(key: Text, value: Json)

  /** A JavaScript value, with object properties in creation order. */
  datatype Json =
    | Null
    | Bool(b: bool)
    | Num(text: Text)
    | Str(s: Text)
    | Arr(items: seq<Json>)
    | Obj(fields: seq<Field>)

  const QUOTE: CodeUnit := 0x22
  const BACKSLASH: CodeUnit := 0x5C
  const COMMA: CodeUnit := 0x2C
  const COLON: CodeUnit := 0x3A
  const OPEN_BRACKET: CodeUnit := 0x5B
  const CLOSE_BRACKET: CodeUnit := 0x5D
  const OPEN_BRACE: CodeUnit := 0x7B
  const CLOSE_BRACE: CodeUnit := 0x7D
  const NULL_TEXT: Text := [0x6E, 0x75, 0x6C, 0x6C]
  const TRUE_TEXT: Text := [0x74, 0x72, 0x75, 0x65]
  const FALSE_TEXT: Text := [0x66, 0x61, 0x6C, 0x73, 0x65]

  // ------------------------------------------------------------- quoting

  predicate HighSurrogate(c: CodeUnit) { 0xD800 <= c < 0xDC00 }

  predicate LowSurrogate(c: CodeUnit) { 0xDC00 <= c < 0xE000 }

  function HexDigit(n: int): CodeUnit
    requires 0 <= n < 16
  {
    if n < 10 then 0x30 + n else 0x57 + n
  }

  function UnicodeEscape(c: CodeUnit): Text {
    [BACKSLASH, 0x75, HexDigit(c / 16 / 16 / 16), HexDigit(c / 16 / 16 % 16), HexDigit(c / 16 % 16), HexDigit(c % 16)]
  }

  /** One code unit that is not half of a surrogate pair. */
  function EscapeUnit(c: CodeUnit): Text {
    if c == 0x08 then [BACKSLASH, 0x62]
    else if c == 0x09 then [BACKSLASH, 0x74]
    else if c == 0x0A then [BACKSLASH, 0x6E]
    else if c == 0x0C then [BACKSLASH, 0x66]
    else if c == 0x0D then [BACKSLASH, 0x72]
    else if c == QUOTE || c == BACKSLASH then [BACKSLASH, c]
    else if c < 0x20 || HighSurrogate(c) || LowSurrogate(c) then UnicodeEscape(c)
    else [c]
  }

  function QuoteBody(s: Text): Text {
    if s == [] then []
    else if |s| >= 2 && HighSurrogate(s[0]) && LowSurrogate(s[1]) then s[..2] + QuoteBody(s[2..])
    else EscapeUnit(s[0]) + QuoteBody(s[1..])
  }

  function Quote(s: Text): Text {
    [QUOTE] + QuoteBody(s) + [QUOTE]
  }

  // ------------------------------------------------------------- printing

  function InsertField(sorted: seq<Field>, f: Field): (r: seq<Field>)
    ensures forall x :: x in r <==> x in sorted || x == f
    ensures |r| == |sorted| + 1
  {
    if sorted == [] then [f]
    else if LexLess(sorted[0].key, f.key) then
      assert sorted == [sorted[0]] + sorted[1..];
      [sorted[0]] + InsertField(sorted[1..], f)
    else [f] + sorted
  }

  function SortFields(fields: seq<Field>): (r: seq<Field>)
    ensures forall x :: x in r <==> x in fields
    ensures |r| == |fields|
  {
    if fields == [] then []
    else
      assert fields == fields[..|fields| - 1] + [Last(fields)];
      InsertField(SortFields(fields[..|fields| - 1]), Last(fields))
  }

  function Print(v: Json): Text
    decreases v
  {
    match v
    case Null => NULL_TEXT
    case Bool(b) => if b then TRUE_TEXT else FALSE_TEXT
    case Num(text) => text
    case Str(s) => Quote(s)
    case Arr(items) => [OPEN_BRACKET] + PrintItems(items) + [CLOSE_BRACKET]
    case Obj(fields) => [OPEN_BRACE] + PrintFields(v, SortFields(fields)) + [CLOSE_BRACE]
  }

  function PrintItems(items: seq<Json>): Text
    decreases items
  {
    if items == [] then []
    else if |items| == 1 then Print(items[0])
    else Print(items[0]) + [COMMA] + PrintItems(items[1..])
  }

  /** Prints properties of `v`, given in sorted order. */
  function PrintFields(v: Json, fields: seq<Field>): Text
    requires v.Obj? && forall f :: f in fields ==> f in v.fields
    decreases v, |fields|
  {
    if fields == [] then []
    else
      assert fields[0] in v.fields;
      var first := Quote(fields[0].key) + [COLON] + Print(fields[0].value);
      if |fields| == 1 then first else first + [COMMA] + PrintFields(v, fields[1..])
  }

  // -------------------------------------------------- values up to key order

  /** A JSON value: an object is a finite map from keys to values. */
  datatype Value =
    | VNull
    | VBool(b: bool)
    | VNum(text: Text)
    | VStr(s: Text)
    | VArr(items: seq<Value>)
    | VObj(fields: map<Text, Value>)

  function Meaning(v: Json): Value
    decreases v
  {
    match v
    case Null => VNull
    case Bool(b) => VBool(b)
    case Num(text) => VNum(text)
    case Str(s) => VStr(s)
    case Arr(items) => VArr(MeaningAll(items))
    case Obj(fields) => VObj(MeaningOf(fields))
  }

  function MeaningAll(items: seq<Json>): (r: seq<Value>)
    ensures |r| == |items|
    ensures forall i :: 0 <= i < |r| ==> r[i] == Meaning(items[i])
    decreases items
  {
    if items == [] then [] else [Meaning(items[0])] + MeaningAll(items[1..])
  }

  function MeaningOf(fields: seq<Field>): (r: map<Text, Value>)
    decreases fields
  {
    if fields == [] then map[] else MeaningOf(fields[1..])[fields[0].key := Meaning(fields[0].value)]
  }

  predicate DistinctKeys(fields: seq<Field>) {
    forall i, j :: 0 <= i < j < |fields| ==> fields[i].key != fields[j].key
  }

  predicate NumberUnit(c: CodeUnit) {
    0x30 <= c <= 0x39 || c in [0x2D, 0x2B, 0x2E, 0x65, 0x45]
  }

  /** A number's text: starts with a digit or a minus sign and has only number characters. */
  predicate NumberText(t: Text) {
    t != [] && (0x30 <= t[0] <= 0x39 || t[0] == 0x2D) && forall i :: 0 <= i < |t| ==> NumberUnit(t[i])
  }

  /** Finite numbers and objects whose property names are distinct. */
  predicate WellFormed(v: Json)
    decreases v
  {
    match v
    case Num(text) => NumberText(text)
    case Arr(items) => forall x :: x in items ==> WellFormed(x)
    case Obj(fields) => DistinctKeys(fields) && forall f :: f in fields ==> WellFormed(f.value)
    case _ => true
  }

  // ------------------------------------------------------------- a reader

  function HexValue(c: CodeUnit): Option<int> {
    if 0x30 <= c <= 0x39 then Some(c - 0x30)
    else if 0x61 <= c <= 0x66 then Some(c - 0x57)
    else None
  }

  function ReadHex(t: Text): (r: Option<CodeUnit>)
    requires |t| == 4
  {
    match (HexValue(t[0]), HexValue(t[1]), HexValue(t[2]), HexValue(t[3]))
    case (Some(a), Some(b), Some(c), Some(d)) =>
      var n := ((a * 16 + b) * 16 + c) * 16 + d;
      if 0 <= n < 0x10000 then Some(n) else None
    case _ => None
  }

  function ReadEscape(c: CodeUnit): Option<CodeUnit> {
    if c == 0x62 then Some(0x08) else if c == 0x74 then Some(0x09) else if c == 0x6E then Some(0x0A)
    else if c == 0x66 then Some(0x0C) else if c == 0x72 then Some(0x0D)
    else if c == QUOTE || c == BACKSLASH || c == 0x2F then Some(c) else None
  }

  /** Reads a string up to its closing quote. */
  function ReadString(t: Text): (r: Option<(Text, Text)>)
    ensures r.Some? ==> |r.value.1| < |t|
  {
    if t == [] then None
    else if t[0] == QUOTE then Some(([], t[1..]))
    else if t[0] == BACKSLASH then
      if |t| >= 6 && t[1] == 0x75 then
        match (ReadHex(t[2..6]), ReadString(t[6..]))
        case (Some(c), Some((s, rest))) => Some(([c] + s, rest))
        case _ => None
      else if |t| >= 2 then
        match (ReadEscape(t[1]), ReadString(t[2..]))
        case (Some(c), Some((s, rest))) => Some(([c] + s, rest))
        case _ => None
      else None
    else
      match ReadString(t[1..])
      case Some((s, rest)) => Some(([t[0]] + s, rest))
      case None => None
  }

  function NumberLength(t: Text): (n: nat)
    ensures n <= |t|
  {
    if t == [] || !NumberUnit(t[0]) then 0 else 1 + NumberLength(t[1..])
  }

  /** Reads one value and returns the text after it. */
  function Read(t: Text): (r: Option<(Value, Text)>)
    ensures r.Some? ==> |r.value.1| < |t|
    decreases |t|, 0
  {
    if t == [] then None
    else if t[0] == NULL_TEXT[0] then if NULL_TEXT <= t then Some((VNull, t[4..])) else None
    else if t[0] == TRUE_TEXT[0] then if TRUE_TEXT <= t then Some((VBool(true), t[4..])) else None
    else if t[0] == FALSE_TEXT[0] then if FALSE_TEXT <= t then Some((VBool(false), t[5..])) else None
    else if t[0] == QUOTE then
      match ReadString(t[1..])
      case Some((s, rest)) => Some((VStr(s), rest))
      case None => None
    else if t[0] == OPEN_BRACKET then
      if |t| >= 2 && t[1] == CLOSE_BRACKET then Some((VArr([]), t[2..]))
      else match ReadItems(t[1..])
           case Some((items, rest)) => Some((VArr(items), rest))
           case None => None
    else if t[0] == OPEN_BRACE then
      if |t| >= 2 && t[1] == CLOSE_BRACE then Some((VObj(map[]), t[2..]))
      else match ReadFields(t[1..])
           case Some((fields, rest)) => Some((VObj(fields), rest))
           case None => None
    else if NumberUnit(t[0]) then Some((VNum(t[..NumberLength(t)]), t[NumberLength(t)..]))
    else None
  }

  function ReadItems(t: Text): (r: Option<(seq<Value>, Text)>)
    ensures r.Some? ==> |r.value.1| < |t|
    decreases |t|, 1
  {
    match Read(t)
    case Some((x, after)) =>
      if after != [] && after[0] == COMMA then
        match ReadItems(after[1..])
        case Some((xs, rest)) => Some(([x] + xs, rest))
        case None => None
      else if after != [] && after[0] == CLOSE_BRACKET then Some(([x], after[1..]))
      else None
    case None => None
  }

  function ReadFields(t: Text): (r: Option<(map<Text, Value>, Text)>)
    ensures r.Some? ==> |r.value.1| < |t|
    decreases |t|, 1
  {
    if t == [] || t[0] != QUOTE then None
    else
      match ReadString(t[1..])
      case Some((key, colon)) =>
        if colon != [] && colon[0] == COLON then
          match Read(colon[1..])
          case Some((x, after)) =>
            if after != [] && after[0] == COMMA then
              match ReadFields(after[1..])
              case Some((fields, rest)) => Some((fields[key := x], rest))
              case None => None
            else if after != [] && after[0] == CLOSE_BRACE then Some((map[key := x], after[1..]))
            else None
          case None => None
        else None
      case None => None
  }

  // --------------------------------------------------------- round trip

  lemma {:induction false} HexRoundTrip(c: CodeUnit)
    ensures ReadHex(UnicodeEscape(c)[2..6]) == Some(c)
  {
    var q1, q2 := c / 16, c / 16 / 16;
    assert c == q1 * 16 + c % 16 && q1 == q2 * 16 + q1 % 16 && q2 == q2 / 16 * 16 + q2 % 16;
    assert 0 <= q2 / 16 < 16;
    var t := UnicodeEscape(c)[2..6];
    assert t == [HexDigit(q2 / 16), HexDigit(q2 % 16), HexDigit(q1 % 16), HexDigit(c % 16)];
    HexDigits(q2 / 16);
    HexDigits(q2 % 16);
    HexDigits(q1 % 16);
    HexDigits(c % 16);
  }

  lemma {:induction false} HexDigits(n: int)
    requires 0 <= n < 16
    ensures HexValue(HexDigit(n)) == Some(n)
  {}

  lemma {:induction false} UnicodeRoundTrip(c: CodeUnit, tail: Text)
    requires ReadString(tail).Some?
    ensures ReadString(UnicodeEscape(c) + tail) == Some(([c] + ReadString(tail).value.0, ReadString(tail).value.1))
  {
    HexRoundTrip(c);
    var t := UnicodeEscape(c) + tail;
    assert t[6..] == tail && t[2..6] == UnicodeEscape(c)[2..6];
  }

  lemma {:induction false} ShortRoundTrip(escape: CodeUnit, c: CodeUnit, tail: Text)
    requires ReadString(tail).Some? && ReadEscape(escape) == Some(c)
    ensures ReadString([BACKSLASH, escape] + tail) == Some(([c] + ReadString(tail).value.0, ReadString(tail).value.1))
  {
    assert ([BACKSLASH, escape] + tail)[2..] == tail;
  }

  lemma {:induction false} RawRoundTrip(c: CodeUnit, tail: Text)
    requires ReadString(tail).Some? && c != QUOTE && c != BACKSLASH
    ensures ReadString([c] + tail) == Some(([c] + ReadString(tail).value.0, ReadString(tail).value.1))
  {
    assert ([c] + tail)[1..] == tail;
  }

  lemma {:induction false} EscapeRoundTrip(c: CodeUnit, tail: Text)
    requires ReadString(tail).Some?
    ensures ReadString(EscapeUnit(c) + tail) == Some(([c] + ReadString(tail).value.0, ReadString(tail).value.1))
  {
    var e := EscapeUnit(c);
    if |e| == 6 {
      UnicodeRoundTrip(c, tail);
    } else if |e| == 2 {
      ShortRoundTrip(e[1], c, tail);
    } else {
      RawRoundTrip(c, tail);
    }
  }

  lemma {:induction false} PairRoundTrip(s: Text, tail: Text)
    requires |s| == 2 && HighSurrogate(s[0]) && LowSurrogate(s[1]) && ReadString(tail).Some?
    ensures ReadString(s + tail) == Some((s + ReadString(tail).value.0, ReadString(tail).value.1))
  {
    RawRoundTrip(s[1], tail);
    RawRoundTrip(s[0], [s[1]] + tail);
    assert s + tail == [s[0]] + ([s[1]] + tail);
    var rest := ReadString(tail).value.0;
    assert s + rest == [s[0]] + ([s[1]] + rest);
  }

  lemma {:induction false} Regroup(first: Text, body: Text, rest: Text)
    ensures first + body + [QUOTE] + rest == first + (body + [QUOTE] + rest)
  {}

  lemma {:induction false} QuotePair(s: Text, rest: Text)
    requires |s| >= 2 && HighSurrogate(s[0]) && LowSurrogate(s[1])
    requires ReadString(QuoteBody(s[2..]) + [QUOTE] + rest) == Some((s[2..], rest))
    ensures ReadString(QuoteBody(s) + [QUOTE] + rest) == Some((s, rest))
  {
    PairRoundTrip(s[..2], QuoteBody(s[2..]) + [QUOTE] + rest);
    Regroup(s[..2], QuoteBody(s[2..]), rest);
    assert s == s[..2] + s[2..];
  }

  lemma {:induction false} QuoteUnit(s: Text, rest: Text)
    requires s != [] && !(|s| >= 2 && HighSurrogate(s[0]) && LowSurrogate(s[1]))
    requires ReadString(QuoteBody(s[1..]) + [QUOTE] + rest) == Some((s[1..], rest))
    ensures ReadString(QuoteBody(s) + [QUOTE] + rest) == Some((s, rest))
  {
    EscapeRoundTrip(s[0], QuoteBody(s[1..]) + [QUOTE] + rest);
    Regroup(EscapeUnit(s[0]), QuoteBody(s[1..]), rest);
    assert s == [s[0]] + s[1..];
  }

  /** A quoted string reads back to itself, whatever follows it. */
  lemma {:induction false} QuoteRoundTrip(s: Text, rest: Text)
    ensures ReadString(QuoteBody(s) + [QUOTE] + rest) == Some((s, rest))
    decreases |s|
  {
    if s == [] {
      assert (QuoteBody(s) + [QUOTE] + rest)[1..] == rest;
    } else if |s| >= 2 && HighSurrogate(s[0]) && LowSurrogate(s[1]) {
      QuoteRoundTrip(s[2..], rest);
      QuotePair(s, rest);
    } else {
      QuoteRoundTrip(s[1..], rest);
      QuoteUnit(s, rest);
    }
  }

  // ------------------------------------------------ canonical form, both ways

  /** Text that cannot continue a number. */
  predicate Delimits(rest: Text) {
    rest == [] || !NumberUnit(rest[0])
  }

  lemma {:induction false} NumberEnds(t: Text, rest: Text)
    requires (forall i :: 0 <= i < |t| ==> NumberUnit(t[i])) && Delimits(rest)
    ensures NumberLength(t + rest) == |t|
  {
    if t == [] {
      assert t + rest == rest;
    } else {
      assert (t + rest)[1..] == t[1..] + rest;
      NumberEnds(t[1..], rest);
    }
  }

  /** No printed value starts with a closing bracket or brace. */
  lemma {:induction false} PrintStarts(v: Json)
    requires WellFormed(v)
    ensures Print(v) != [] && Print(v)[0] != CLOSE_BRACKET && Print(v)[0] != CLOSE_BRACE
  {}

  lemma {:induction false} SortedFieldsAreSorted(fields: seq<Field>)
    requires DistinctKeys(fields)
    ensures KeysSorted(SortFields(fields)) && DistinctKeys(SortFields(fields))
  {
    if fields != [] {
      var front, f := fields[..|fields| - 1], Last(fields);
      SortedFieldsAreSorted(front);
      forall g | g in SortFields(front) ensures g.key != f.key {
        assert g in front;
      }
      InsertKeepsSorted(SortFields(front), f);
    }
    KeysSortedDistinct(SortFields(fields));
  }

  ghost predicate KeysSorted(fields: seq<Field>) {
    forall i, j :: 0 <= i < j < |fields| ==> LexLess(fields[i].key, fields[j].key)
  }

  lemma {:induction false} KeysSortedDistinct(fields: seq<Field>)
    requires KeysSorted(fields)
    ensures DistinctKeys(fields)
  {
    forall i, j | 0 <= i < j < |fields| ensures fields[i].key != fields[j].key {
      LexTrichotomy(fields[i].key, fields[j].key);
    }
  }

  lemma {:induction false} InsertKeepsSorted(sorted: seq<Field>, f: Field)
    requires KeysSorted(sorted) && forall g :: g in sorted ==> g.key != f.key
    ensures KeysSorted(InsertField(sorted, f))
  {
    if sorted != [] {
      if LexLess(sorted[0].key, f.key) {
        InsertKeepsSorted(sorted[1..], f);
        var r := InsertField(sorted[1..], f);
        forall j | 0 <= j < |r| ensures LexLess(sorted[0].key, r[j].key) {
          assert r[j] in r;
        }
      } else {
        LexTrichotomy(sorted[0].key, f.key);
        forall j | 0 < j < |sorted| ensures LexLess(f.key, sorted[j].key) {
          LexTransitive(f.key, sorted[0].key, sorted[j].key);
        }
      }
    }
  }

  /** The map of a field list: its keys, and each key's value. */
  lemma {:induction false} MeaningOfFields(fields: seq<Field>)
    requires DistinctKeys(fields)
    ensures forall f :: f in fields ==> f.key in MeaningOf(fields) && MeaningOf(fields)[f.key] == Meaning(f.value)
    ensures forall k :: k in MeaningOf(fields) ==> exists f :: f in fields && f.key == k
  {
    forall f | f in fields ensures f.key in MeaningOf(fields) && MeaningOf(fields)[f.key] == Meaning(f.value) {
      var i :| 0 <= i < |fields| && fields[i] == f;
      MeaningAt(fields, i);
    }
    forall k | k in MeaningOf(fields) ensures exists f :: f in fields && f.key == k {
      var f := MeaningFrom(fields, k);
    }
  }

  lemma {:induction false} MeaningAt(fields: seq<Field>, i: nat)
    requires DistinctKeys(fields) && i < |fields|
    ensures fields[i].key in MeaningOf(fields) && MeaningOf(fields)[fields[i].key] == Meaning(fields[i].value)
  {
    if i > 0 {
      MeaningAt(fields[1..], i - 1);
      assert fields[0].key != fields[i].key;
    }
  }

  lemma {:induction false} MeaningFrom(fields: seq<Field>, k: Text) returns (f: Field)
    requires k in MeaningOf(fields)
    ensures f in fields && f.key == k
  {
    if fields[0].key == k {
      f := fields[0];
    } else {
      f := MeaningFrom(fields[1..], k);
    }
  }

  /** Creation order does not matter to the meaning. */
  lemma {:induction false} SameFieldsSameMeaning(fields: seq<Field>, others: seq<Field>)
    requires DistinctKeys(fields) && DistinctKeys(others)
    requires forall f :: f in fields <==> f in others
    ensures MeaningOf(fields) == MeaningOf(others)
  {
    MeaningOfFields(fields);
    MeaningOfFields(others);
    forall k ensures k in MeaningOf(fields) <==> k in MeaningOf(others) {
      if k in MeaningOf(fields) {
        var f :| f in fields && f.key == k;
        assert f in others;
      }
      if k in MeaningOf(others) {
        var f :| f in others && f.key == k;
        assert f in fields;
      }
    }
    forall k | k in MeaningOf(fields) ensures MeaningOf(fields)[k] == MeaningOf(others)[k] {
      var f :| f in fields && f.key == k;
      assert f in others;
    }
  }

  lemma {:induction false} ReadNumber(text: Text, rest: Text)
    requires NumberText(text) && Delimits(rest)
    ensures Read(text + rest) == Some((VNum(text), rest))
  {
    var t := text + rest;
    NumberEnds(text, rest);
    assert t[0] == text[0];
    assert t[..|text|] == text && t[|text|..] == rest;
  }

  lemma {:induction false} ReadQuoted(s: Text, rest: Text)
    ensures Read(Quote(s) + rest) == Some((VStr(s), rest))
  {
    QuoteRoundTrip(s, rest);
    var t := Quote(s) + rest;
    assert t[0] == QUOTE && t[1..] == QuoteBody(s) + [QUOTE] + rest;
  }

  lemma {:induction false} ReadWord(word: Text, value: Value, rest: Text)
    requires (word, value) in [(NULL_TEXT, VNull), (TRUE_TEXT, VBool(true)), (FALSE_TEXT, VBool(false))]
    ensures Read(word + rest) == Some((value, rest))
  {
    var t := word + rest;
    assert t[0] == word[0] && t[|word|..] == rest && word <= t;
  }

  // Brackets and separators around texts that read back.

  lemma {:induction false} ReadEmpty(rest: Text)
    ensures Read([OPEN_BRACKET] + [CLOSE_BRACKET] + rest) == Some((VArr([]), rest))
    ensures Read([OPEN_BRACE] + [CLOSE_BRACE] + rest) == Some((VObj(map[]), rest))
  {
    var t, u := [OPEN_BRACKET] + [CLOSE_BRACKET] + rest, [OPEN_BRACE] + [CLOSE_BRACE] + rest;
    assert t[0] == OPEN_BRACKET && t[1] == CLOSE_BRACKET && t[2..] == rest;
    assert u[0] == OPEN_BRACE && u[1] == CLOSE_BRACE && u[2..] == rest;
  }

  lemma {:induction false} ReadBrackets(body: Text, items: seq<Value>, rest: Text)
    requires body != [] && body[0] != CLOSE_BRACKET && ReadItems(body) == Some((items, rest))
    ensures Read([OPEN_BRACKET] + body) == Some((VArr(items), rest))
  {
    assert ([OPEN_BRACKET] + body)[1..] == body;
  }

  lemma {:induction false} ReadBraces(body: Text, fields: map<Text, Value>, rest: Text)
    requires body != [] && body[0] != CLOSE_BRACE && ReadFields(body) == Some((fields, rest))
    ensures Read([OPEN_BRACE] + body) == Some((VObj(fields), rest))
  {
    assert ([OPEN_BRACE] + body)[1..] == body;
  }

  lemma {:induction false} ReadLastItem(text: Text, x: Value, rest: Text)
    requires Read(text) == Some((x, [CLOSE_BRACKET] + rest))
    ensures ReadItems(text) == Some(([x], rest))
  {
    assert ([CLOSE_BRACKET] + rest)[1..] == rest;
  }

  lemma {:induction false} ReadMoreItems(text: Text, x: Value, tail: Text, xs: seq<Value>, rest: Text)
    requires Read(text) == Some((x, [COMMA] + tail)) && ReadItems(tail) == Some((xs, rest))
    ensures ReadItems(text) == Some(([x] + xs, rest))
  {
    assert ([COMMA] + tail)[1..] == tail;
  }

  lemma {:induction false} ReadLastField(key: Text, text: Text, x: Value, rest: Text)
    requires Read(text) == Some((x, [CLOSE_BRACE] + rest))
    ensures ReadFields(Quote(key) + ([COLON] + text)) == Some((map[key := x], rest))
  {
    ReadKey(key, text);
    assert ([CLOSE_BRACE] + rest)[1..] == rest;
  }

  lemma {:induction false} ReadMoreFields(key: Text, text: Text, x: Value, tail: Text, fields: map<Text, Value>,
                                          rest: Text)
    requires Read(text) == Some((x, [COMMA] + tail)) && ReadFields(tail) == Some((fields, rest))
    ensures ReadFields(Quote(key) + ([COLON] + text)) == Some((fields[key := x], rest))
  {
    ReadKey(key, text);
    assert ([COMMA] + tail)[1..] == tail;
  }

  lemma {:induction false} ReadKey(key: Text, text: Text)
    ensures var t := Quote(key) + ([COLON] + text);
            && t[0] == QUOTE && ReadString(t[1..]) == Some((key, [COLON] + text))
            && ([COLON] + text)[1..] == text
  {
    QuoteRoundTrip(key, [COLON] + text);
    var t := Quote(key) + ([COLON] + text);
    assert t[1..] == QuoteBody(key) + [QUOTE] + ([COLON] + text);
  }

  /** Printing and reading back gives the value's meaning, and leaves the rest. */
  lemma {:induction false} ReadPrint(v: Json, rest: Text)
    requires WellFormed(v) && Delimits(rest)
    ensures Read(Print(v) + rest) == Some((Meaning(v), rest))
    decreases v
  {
    match v
    case Null => ReadWord(NULL_TEXT, VNull, rest);
    case Bool(b) => ReadWord(if b then TRUE_TEXT else FALSE_TEXT, VBool(b), rest);
    case Num(text) => ReadNumber(text, rest);
    case Str(s) => ReadQuoted(s, rest);
    case Arr(items) =>
      if items == [] {
        ReadEmpty(rest);
        assert [OPEN_BRACKET] + [] + [CLOSE_BRACKET] == [OPEN_BRACKET] + [CLOSE_BRACKET];
      } else {
        ReadPrintArray(items, rest);
      }
    case Obj(fields) => ReadPrintObject(v, rest);
  }

  lemma {:induction false} ReadPrintArray(items: seq<Json>, rest: Text)
    requires items != [] && forall x :: x in items ==> WellFormed(x)
    ensures Read(Print(Arr(items)) + rest) == Some((VArr(MeaningAll(items)), rest))
    decreases items, 1
  {
    ReadPrintItems(items, rest);
    ReadArrayBody(items, rest);
    Enclosed(OPEN_BRACKET, PrintItems(items), CLOSE_BRACKET, rest);
  }

  lemma {:induction false} ReadArrayBody(items: seq<Json>, rest: Text)
    requires items != [] && WellFormed(items[0])
    requires ReadItems(PrintItems(items) + ([CLOSE_BRACKET] + rest)) == Some((MeaningAll(items), rest))
    ensures Read([OPEN_BRACKET] + (PrintItems(items) + ([CLOSE_BRACKET] + rest)))
         == Some((VArr(MeaningAll(items)), rest))
  {
    var body := PrintItems(items) + ([CLOSE_BRACKET] + rest);
    PrintStarts(items[0]);
    ItemsText(items, [CLOSE_BRACKET] + rest);
    assert body[0] == Print(items[0])[0];
    ReadBrackets(body, MeaningAll(items), rest);
  }

  lemma {:induction false} Enclosed(open: CodeUnit, body: Text, close: CodeUnit, rest: Text)
    ensures [open] + body + [close] + rest == [open] + (body + ([close] + rest))
  {}

  lemma {:induction false} ReadPrintObject(v: Json, rest: Text)
    requires v.Obj? && WellFormed(v)
    ensures Read(Print(v) + rest) == Some((Meaning(v), rest))
    decreases v, |v.fields| + 1
  {
    SortedFieldsAreSorted(v.fields);
    var sorted := SortFields(v.fields);
    SameFieldsSameMeaning(v.fields, sorted);
    if sorted == [] {
      ReadEmpty(rest);
      assert [OPEN_BRACE] + [] + [CLOSE_BRACE] == [OPEN_BRACE] + [CLOSE_BRACE];
    } else {
      ReadPrintFields(v, sorted, rest);
      ReadObjectBody(v, sorted, rest);
      Enclosed(OPEN_BRACE, PrintFields(v, sorted), CLOSE_BRACE, rest);
    }
  }

  lemma {:induction false} ReadObjectBody(v: Json, fields: seq<Field>, rest: Text)
    requires v.Obj? && fields != [] && forall f :: f in fields ==> f in v.fields
    requires ReadFields(PrintFields(v, fields) + ([CLOSE_BRACE] + rest)) == Some((MeaningOf(fields), rest))
    ensures Read([OPEN_BRACE] + (PrintFields(v, fields) + ([CLOSE_BRACE] + rest)))
         == Some((VObj(MeaningOf(fields)), rest))
  {
    var body := PrintFields(v, fields) + ([CLOSE_BRACE] + rest);
    FieldsText(v, fields, [CLOSE_BRACE] + rest);
    assert body[0] == QUOTE;
    ReadBraces(body, MeaningOf(fields), rest);
  }

  lemma {:induction false} ItemsText(items: seq<Json>, end: Text)
    requires items != []
    ensures |items| == 1 ==> PrintItems(items) + end == Print(items[0]) + end
    ensures |items| == 1 ==> MeaningAll(items) == [Meaning(items[0])]
    ensures |items| > 1 ==> PrintItems(items) + end == Print(items[0]) + ([COMMA] + (PrintItems(items[1..]) + end))
  {
    Tail(Print(items[0]), PrintItems(items[1..]), end);
  }

  lemma {:induction false} ReadPrintItems(items: seq<Json>, rest: Text)
    requires items != [] && forall x :: x in items ==> WellFormed(x)
    ensures ReadItems(PrintItems(items) + ([CLOSE_BRACKET] + rest)) == Some((MeaningAll(items), rest))
    decreases items, 0
  {
    var x := items[0];
    var end := [CLOSE_BRACKET] + rest;
    ItemsText(items, end);
    if |items| == 1 {
      ReadPrint(x, end);
      ReadLastItem(Print(x) + end, Meaning(x), rest);
    } else {
      ReadPrintItems(items[1..], rest);
      var tail := PrintItems(items[1..]) + end;
      ReadPrint(x, [COMMA] + tail);
      ReadMoreItems(Print(x) + ([COMMA] + tail), Meaning(x), tail, MeaningAll(items[1..]), rest);
    }
  }

  /** A printed property followed by more text. */
  function PrintedFirst(f: Field, tail: Text): Text {
    Quote(f.key) + ([COLON] + (Print(f.value) + tail))
  }

  lemma {:induction false} FieldsText(v: Json, fields: seq<Field>, end: Text)
    requires v.Obj? && fields != [] && forall f :: f in fields ==> f in v.fields
    ensures |fields| == 1 ==>
      PrintFields(v, fields) + end == PrintedFirst(fields[0], end)
    ensures |fields| == 1 ==> MeaningOf(fields) == map[fields[0].key := Meaning(fields[0].value)]
    ensures |fields| > 1 ==>
      PrintFields(v, fields) + end == PrintedFirst(fields[0], [COMMA] + (PrintFields(v, fields[1..]) + end))
  {
    var key, x := Quote(fields[0].key), Print(fields[0].value);
    if |fields| == 1 {
      Nested(key, [COLON], x, end);
    } else {
      Nested(key, [COLON], x, [COMMA] + (PrintFields(v, fields[1..]) + end));
      Tail(key + [COLON] + x, PrintFields(v, fields[1..]), end);
    }
  }

  lemma {:induction false} Nested(a: Text, b: Text, c: Text, d: Text)
    ensures a + b + c + d == a + (b + (c + d))
  {}

  lemma {:induction false} Tail(first: Text, others: Text, end: Text)
    ensures first + [COMMA] + others + end == first + ([COMMA] + (others + end))
  {}

  lemma {:induction false} ReadPrintFields(v: Json, fields: seq<Field>, rest: Text)
    requires v.Obj? && WellFormed(v) && fields != [] && forall f :: f in fields ==> f in v.fields
    ensures ReadFields(PrintFields(v, fields) + ([CLOSE_BRACE] + rest)) == Some((MeaningOf(fields), rest))
    decreases v, |fields|
  {
    var f := fields[0];
    var end := [CLOSE_BRACE] + rest;
    assert f in v.fields;
    FieldsText(v, fields, end);
    if |fields| == 1 {
      ReadPrint(f.value, end);
      ReadLastField(f.key, Print(f.value) + end, Meaning(f.value), rest);
    } else {
      ReadPrintFields(v, fields[1..], rest);
      var tail := PrintFields(v, fields[1..]) + end;
      ReadPrint(f.value, [COMMA] + tail);
      ReadMoreFields(f.key, Print(f.value) + ([COMMA] + tail), Meaning(f.value), tail, MeaningOf(fields[1..]), rest);
    }
  }

  /** Equal meanings print alike: by depth, with equal sorted key lists. */
  lemma {:induction false} SameMeaningSamePrint(v: Json, w: Json)
    requires WellFormed(v) && WellFormed(w) && Meaning(v) == Meaning(w)
    ensures Print(v) == Print(w)
    decreases v
  {
    if v.Arr? {
      SameItems(v.items, w.items);
    } else if v.Obj? {
      SortedFieldsAreSorted(v.fields);
      SortedFieldsAreSorted(w.fields);
      var s, t := SortFields(v.fields), SortFields(w.fields);
      SameFieldsSameMeaning(v.fields, s);
      SameFieldsSameMeaning(w.fields, t);
      SameKeys(s, t);
      SameFields(v, w, s, t);
    }
  }

  lemma {:induction false} SameItems(items: seq<Json>, others: seq<Json>)
    requires (forall x :: x in items ==> WellFormed(x)) && forall x :: x in others ==> WellFormed(x)
    requires MeaningAll(items) == MeaningAll(others)
    ensures PrintItems(items) == PrintItems(others)
    decreases items
  {
    assert |items| == |MeaningAll(items)| == |others|;
    if items != [] {
      assert Meaning(items[0]) == MeaningAll(items)[0] == Meaning(others[0]);
      SameMeaningSamePrint(items[0], others[0]);
      assert MeaningAll(items[1..]) == MeaningAll(items)[1..];
      assert MeaningAll(others[1..]) == MeaningAll(others)[1..];
      SameItems(items[1..], others[1..]);
    }
  }

  function KeysOf(fields: seq<Field>): (r: seq<Text>)
    ensures |r| == |fields| && forall i :: 0 <= i < |r| ==> r[i] == fields[i].key
  {
    seq(|fields|, i requires 0 <= i < |fields| => fields[i].key)
  }

  /** Sorted field lists with the same meaning have the same keys in the same order, and
      equal meanings under each key. */
  lemma {:induction false} SameKeys(s: seq<Field>, t: seq<Field>)
    requires KeysSorted(s) && KeysSorted(t) && DistinctKeys(s) && DistinctKeys(t)
    requires MeaningOf(s) == MeaningOf(t)
    ensures |s| == |t|
    ensures forall i :: 0 <= i < |s| ==> s[i].key == t[i].key && Meaning(s[i].value) == Meaning(t[i].value)
  {
    MeaningOfFields(s);
    MeaningOfFields(t);
    var ks, kt := KeysOf(s), KeysOf(t);
    forall k ensures k in ks <==> k in kt {
      KeyIsIn(s, k);
      KeyIsIn(t, k);
    }
    LexSortedUnique(ks, kt);
    forall i | 0 <= i < |s| ensures s[i].key == t[i].key && Meaning(s[i].value) == Meaning(t[i].value) {
      assert ks[i] == kt[i];
      assert s[i] in s && t[i] in t;
    }
  }

  lemma {:induction false} KeyIsIn(s: seq<Field>, k: seq<int>)
    requires DistinctKeys(s)
    ensures k in KeysOf(s) <==> k in MeaningOf(s)
  {
    MeaningOfFields(s);
    if k in KeysOf(s) {
      var i :| 0 <= i < |s| && KeysOf(s)[i] == k;
      assert s[i] in s;
    }
    if k in MeaningOf(s) {
      var f :| f in s && f.key == k;
      var i :| 0 <= i < |s| && s[i] == f;
      assert KeysOf(s)[i] == k;
    }
  }

  lemma {:induction false} SameFields(v: Json, w: Json, s: seq<Field>, t: seq<Field>)
    requires v.Obj? && w.Obj? && WellFormed(v) && WellFormed(w)
    requires (forall f :: f in s ==> f in v.fields) && forall f :: f in t ==> f in w.fields
    requires |s| == |t|
    requires forall i :: 0 <= i < |s| ==> s[i].key == t[i].key && Meaning(s[i].value) == Meaning(t[i].value)
    ensures PrintFields(v, s) == PrintFields(w, t)
    decreases v, |s|
  {
    if s != [] {
      assert s[0] in v.fields && t[0] in w.fields;
      SameMeaningSamePrint(s[0].value, t[0].value);
      SameFields(v, w, s[1..], t[1..]);
    }
  }

  /** Two values print to the same text exactly when they are equal as JSON values: equal
      up to the order in which object properties were created, at every depth. */
  lemma {:induction false} CanonicalIffEqual(v: Json, w: Json)
    requires WellFormed(v) && WellFormed(w)
    ensures Print(v) == Print(w) <==> Meaning(v) == Meaning(w)
  {
    ReadPrint(v, []);
    ReadPrint(w, []);
    assert Print(v) + [] == Print(v) && Print(w) + [] == Print(w);
    if Meaning(v) == Meaning(w) {
      SameMeaningSamePrint(v, w);
    }
  }

  /** The usage ledger's key for a request (packages/policy/src/efficiency.ts). */
  function UsageKey(provider: Text, executionId: Text, requestId: Text): Text {
    Print(Arr([Str(provider), Str(executionId), Str(requestId)]))
  }

  /** Different requests never share a key. */
  lemma {:induction false} UsageKeyInjective(p1: Text, e1: Text, r1: Text, p2: Text, e2: Text, r2: Text)
    requires UsageKey(p1, e1, r1) == UsageKey(p2, e2, r2)
    ensures p1 == p2 && e1 == e2 && r1 == r2
  {
    var v, w := Arr([Str(p1), Str(e1), Str(r1)]), Arr([Str(p2), Str(e2), Str(r2)]);
    CanonicalIffEqual(v, w);
    assert MeaningAll(v.items)[0] == MeaningAll(w.items)[0];
    assert MeaningAll(v.items)[1] == MeaningAll(w.items)[1];
    assert MeaningAll(v.items)[2] == MeaningAll(w.items)[2];
  }

  // ------------------------------------------------------------- the text itself

  function Chars(s: string): (t: Text)
    requires forall i :: 0 <= i < |s| ==> s[i] as int < 128
    ensures |t| == |s| && forall i :: 0 <= i < |s| ==> t[i] == s[i] as int
  {
    seq(|s|, i requires 0 <= i < |s| => s[i] as int)
  }

  predicate LowerHex(c: CodeUnit) {
    '0' as int <= c <= '9' as int || 'a' as int <= c <= 'f' as int
  }

  /** The escapes that JSON has letters for, and the four-digit form for other controls and for
      halves of surrogate pairs; everything else stands for itself. */
  lemma {:induction false} EscapesAreStandard(c: CodeUnit)
    ensures c == '\n' as int ==> EscapeUnit(c) == Chars("\\n")
    ensures c == '\r' as int ==> EscapeUnit(c) == Chars("\\r")
    ensures c == '\t' as int ==> EscapeUnit(c) == Chars("\\t")
    ensures c == 8 ==> EscapeUnit(c) == Chars("\\b")
    ensures c == 12 ==> EscapeUnit(c) == Chars("\\f")
    ensures c == '\"' as int ==> EscapeUnit(c) == Chars("\\\"")
    ensures c == '\\' as int ==> EscapeUnit(c) == Chars("\\\\")
    ensures |EscapeUnit(c)| == 6 <==>
              (c < 32 && c !in {8, 9, 10, 12, 13}) || 0xD800 <= c <= 0xDFFF
    ensures |EscapeUnit(c)| == 6 ==>
              EscapeUnit(c)[..2] == Chars("\\u") && forall i :: 2 <= i < 6 ==> LowerHex(EscapeUnit(c)[i])
    ensures |EscapeUnit(c)| == 1 <==>
              c >= 32 && c != '\"' as int && c != '\\' as int && !(0xD800 <= c <= 0xDFFF)
    ensures |EscapeUnit(c)| == 1 ==> EscapeUnit(c) == [c]
  {
    HexDigitsAreLower(c);
  }

  lemma {:induction false} HexDigitsAreLower(c: CodeUnit)
    ensures forall i :: 2 <= i < 6 ==> LowerHex(UnicodeEscape(c)[i])
  {
    assert 0 <= c / 16 / 16 / 16 < 16;
  }

  /** Only whole surrogate pairs: valid UTF-16. */
  predicate Paired(t: Text) {
    t == []
    || (!HighSurrogate(t[0]) && !LowSurrogate(t[0]) && Paired(t[1..]))
    || (|t| >= 2 && HighSurrogate(t[0]) && LowSurrogate(t[1]) && Paired(t[2..]))
  }

  predicate Printable(t: Text) {
    Paired(t) && forall i :: 0 <= i < |t| ==> t[i] >= 32
  }

  lemma {:induction false} PairedJoin(a: Text, b: Text)
    requires Paired(a) && Paired(b)
    ensures Paired(a + b)
    decreases |a|
  {
    if a == [] {
      assert a + b == b;
    } else if !HighSurrogate(a[0]) && !LowSurrogate(a[0]) {
      assert (a + b)[1..] == a[1..] + b;
      PairedJoin(a[1..], b);
    } else {
      assert (a + b)[2..] == a[2..] + b;
      PairedJoin(a[2..], b);
    }
  }

  lemma {:induction false} AsciiIsPaired(t: Text)
    requires forall i :: 0 <= i < |t| ==> t[i] < 0xD800
    ensures Paired(t)
  {
    if t != [] {
      AsciiIsPaired(t[1..]);
    }
  }

  lemma {:induction false} EscapeIsPrintable(c: CodeUnit)
    ensures Printable(EscapeUnit(c))
  {
    var e := EscapeUnit(c);
    HexDigitsAreLower(c);
    EscapesAreStandard(c);
    if |e| == 1 {
      assert e[1..] == [];
    } else {
      AsciiIsPaired(e);
    }
  }

  lemma {:induction false} PrintableJoin(a: Text, b: Text)
    requires Printable(a) && Printable(b)
    ensures Printable(a + b)
  {
    PairedJoin(a, b);
  }

  lemma {:induction false} PairIsPrintable(s: Text)
    requires |s| == 2 && HighSurrogate(s[0]) && LowSurrogate(s[1])
    ensures Printable(s)
  {
    assert s[2..] == [];
  }

  lemma {:induction false} BodyIsPrintable(s: Text)
    ensures Printable(QuoteBody(s))
    decreases |s|
  {
    if s != [] {
      if |s| >= 2 && HighSurrogate(s[0]) && LowSurrogate(s[1]) {
        BodyIsPrintable(s[2..]);
        PairIsPrintable(s[..2]);
        PrintableJoin(s[..2], QuoteBody(s[2..]));
      } else {
        BodyIsPrintable(s[1..]);
        EscapeIsPrintable(s[0]);
        PrintableJoin(EscapeUnit(s[0]), QuoteBody(s[1..]));
      }
    }
  }

  lemma {:induction false} SymbolIsPrintable(c: CodeUnit)
    requires 32 <= c < 128
    ensures Printable([c])
  {
    AsciiIsPaired([c]);
  }

  lemma {:induction false} QuoteIsPrintable(s: Text)
    ensures Printable(Quote(s))
  {
    BodyIsPrintable(s);
    SymbolIsPrintable(QUOTE);
    PrintableJoin([QUOTE], QuoteBody(s));
    PrintableJoin([QUOTE] + QuoteBody(s), [QUOTE]);
  }

  lemma {:induction false} WordsArePrintable()
    ensures Printable(NULL_TEXT) && Printable(TRUE_TEXT) && Printable(FALSE_TEXT)
  {
    AsciiIsPaired(NULL_TEXT);
    AsciiIsPaired(TRUE_TEXT);
    AsciiIsPaired(FALSE_TEXT);
  }

  lemma {:induction false} NumberIsPrintable(text: Text)
    requires NumberText(text)
    ensures Printable(text)
  {
    AsciiIsPaired(text);
  }

  /** Whatever strings a value contains - controls, or halves of surrogate pairs - its text is
      valid UTF-16 without control characters. */
  lemma {:induction false} PrintIsPrintable(v: Json)
    requires WellFormed(v)
    ensures Printable(Print(v))
    decreases v, 1
  {
    match v
    case Null => WordsArePrintable();
    case Bool(b) => WordsArePrintable();
    case Num(text) => NumberIsPrintable(text);
    case Str(s) => QuoteIsPrintable(s);
    case Arr(items) =>
      ItemsArePrintable(items);
      Enclosing(OPEN_BRACKET, PrintItems(items), CLOSE_BRACKET);
    case Obj(fields) =>
      FieldsArePrintable(v, SortFields(fields));
      Enclosing(OPEN_BRACE, PrintFields(v, SortFields(fields)), CLOSE_BRACE);
  }

  lemma {:induction false} Enclosing(open: CodeUnit, body: Text, close: CodeUnit)
    requires 32 <= open < 128 && 32 <= close < 128 && Printable(body)
    ensures Printable([open] + body + [close])
  {
    SymbolIsPrintable(open);
    SymbolIsPrintable(close);
    PrintableJoin([open], body);
    PrintableJoin([open] + body, [close]);
  }

  lemma {:induction false} Separated(a: Text, separator: CodeUnit, b: Text)
    requires Printable(a) && 32 <= separator < 128 && Printable(b)
    ensures Printable(a + [separator] + b)
  {
    SymbolIsPrintable(separator);
    PrintableJoin(a, [separator]);
    PrintableJoin(a + [separator], b);
  }

  lemma {:induction false} ItemsArePrintable(items: seq<Json>)
    requires forall x :: x in items ==> WellFormed(x)
    ensures Printable(PrintItems(items))
    decreases items, 0
  {
    if items != [] {
      PrintIsPrintable(items[0]);
      ItemsArePrintable(items[1..]);
      Separated(Print(items[0]), COMMA, PrintItems(items[1..]));
    }
  }

  lemma {:induction false} FieldsArePrintable(v: Json, fields: seq<Field>)
    requires v.Obj? && WellFormed(v) && forall f :: f in fields ==> f in v.fields
    ensures Printable(PrintFields(v, fields))
    decreases v, 0, |fields|
  {
    if fields != [] {
      assert fields[0] in v.fields;
      var key, text := Quote(fields[0].key), Print(fields[0].value);
      QuoteIsPrintable(fields[0].key);
      PrintIsPrintable(fields[0].value);
      Separated(key, COLON, text);
      FieldsArePrintable(v, fields[1..]);
      Separated(key + [COLON] + text, COMMA, PrintFields(v, fields[1..]));
    }
  }

  lemma {:induction false} Words()
    ensures Print(Null) == Chars("null") && Print(Bool(true)) == Chars("true") && Print(Bool(false)) == Chars("false")
    ensures Print(Arr([])) == Chars("[]") && Print(Obj([])) == Chars("{}")
  {}

  /** The punctuation of an array's text: no spaces. */
  lemma {:induction false} ArrayText(x: Json, y: Json)
    ensures Print(Arr([x, y])) == Chars("[") + (Print(x) + Chars(",") + Print(y)) + Chars("]")
  {
    var first, second := Print(x), Print(y);
    assert PrintItems([y]) == second;
    assert [x, y][1..] == [y];
    assert PrintItems([x, y]) == first + [COMMA] + second;
    assert Chars("[") == [OPEN_BRACKET] && Chars("]") == [CLOSE_BRACKET] && Chars(",") == [COMMA];
  }

  /** The punctuation of an object's text: no spaces, and the smaller key first, whichever
      property was created first. */
  lemma {:induction false} ObjectText(a: Field, b: Field)
    requires LexLess(a.key, b.key)
    ensures Print(Obj([a, b])) == Print(Obj([b, a]))
         == Chars("{") + (Quote(a.key) + Chars(":") + Print(a.value) + Chars(",")
                          + (Quote(b.key) + Chars(":") + Print(b.value))) + Chars("}")
  {
    LexTrichotomy(a.key, b.key);
    TwoSort(a, b);
    TwoFields(Obj([a, b]), a, b);
    TwoFields(Obj([b, a]), a, b);
    assert Chars("{") == [OPEN_BRACE] && Chars("}") == [CLOSE_BRACE];
  }

  lemma {:induction false} TwoSort(a: Field, b: Field)
    requires LexLess(a.key, b.key) && !LexLess(b.key, a.key)
    ensures SortFields([a, b]) == SortFields([b, a]) == [a, b]
  {
    assert [a, b][..1] == [a] && [b, a][..1] == [b] && [a][..0] == [] && [b][..0] == [];
    assert SortFields([a]) == [a] && SortFields([b]) == [b];
    assert [a][1..] == [];
  }

  lemma {:induction false} TwoFields(v: Json, a: Field, b: Field)
    requires v.Obj? && a in v.fields && b in v.fields
    ensures PrintFields(v, [a, b])
         == Quote(a.key) + Chars(":") + Print(a.value) + Chars(",") + (Quote(b.key) + Chars(":") + Print(b.value))
  {
    assert [a, b][1..] == [b];
    assert Chars(":") == [COLON] && Chars(",") == [COMMA];
  }
}
