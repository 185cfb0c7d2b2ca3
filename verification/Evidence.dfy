/** Worker results as text (src/durable_threads/evidence.py): the documented plain form,
    its parser, and the JSON alternative with the JSON loader as an oracle.
    Text is Python's: characters are code points, and stripping, line splitting and
    case-insensitive matching follow Python's rules. */
module Evidence {
  import opened Common

  datatype WorkerEvidence = WorkerEvidence(
    status: string, provider: Option<string>, changed: seq<string>, checks: seq<string>, concerns: seq<string>)

  datatype ListField = ChangedPaths | Checks | RemainingConcerns

  datatype Error = EmptyResult | BadList(field: ListField) | NoStatus

  datatype Parsed = Rejected(error: Error) | Parsed(evidence: WorkerEvidence)

  const STATUSES: set<string> := {"complete", "blocked", "failed"}

  // ------------------------------------------------------------- characters

  predicate LineBreak(c: char) {
    var n := c as int;
    0x0A <= n <= 0x0D || 0x1C <= n <= 0x1E || n == 0x85 || n == 0x2028 || n == 0x2029
  }

  predicate Space(c: char) {
    var n := c as int;
    || 0x09 <= n <= 0x0D || 0x1C <= n <= 0x20 || n == 0x85 || n == 0xA0 || n == 0x1680
    || 0x2000 <= n <= 0x200A || n == 0x2028 || n == 0x2029 || n == 0x202F || n == 0x205F || n == 0x3000
  }

  predicate SingleLine(s: string) {
    forall i :: 0 <= i < |s| ==> !LineBreak(s[i])
  }

  predicate Blank(s: string) {
    forall i :: 0 <= i < |s| ==> Space(s[i])
  }

  function TrimLeft(s: string): (r: string)
    ensures r == [] || !Space(r[0])
    ensures s != [] && !Space(s[0]) ==> r == s
    ensures SingleLine(s) ==> SingleLine(r)
    ensures r == [] <==> Blank(s)
    ensures |r| <= |s|
  {
    if s != [] && Space(s[0]) then TrimLeft(s[1..]) else s
  }

  function TrimRight(s: string): (r: string)
    ensures r <= s && (r == [] || !Space(Last(r)))
    ensures s != [] && !Space(Last(s)) ==> r == s
    ensures SingleLine(s) ==> SingleLine(r)
    ensures s != [] && !Space(s[0]) ==> r != []
  {
    if s != [] && Space(Last(s)) then TrimRight(s[..|s| - 1]) else s
  }

  function Strip(s: string): (r: string)
    ensures r == [] || (!Space(r[0]) && !Space(Last(r)))
    ensures s != [] && !Space(s[0]) && !Space(Last(s)) ==> r == s
    ensures SingleLine(s) ==> SingleLine(r)
    ensures r == [] <==> Blank(s)
    ensures |r| <= |s|
  {
    TrimRight(TrimLeft(s))
  }

  /** Drops the leading dashes and spaces of a list item. */
  function DropMarks(s: string): (r: string)
    ensures SingleLine(s) ==> SingleLine(r)
    ensures |r| <= |s|
    ensures r == [] || (r[0] != '-' && r[0] != ' ')
    ensures s != [] && s[0] != '-' && s[0] != ' ' ==> r == s
  {
    if s != [] && (s[0] == '-' || s[0] == ' ') then DropMarks(s[1..]) else s
  }

  /** The letter that a case-insensitive pattern compares. */
  function PatternCase(c: char): char {
    if 'A' <= c <= 'Z' then (c as int + 32) as char
    else if c as int == 0x17F then 's'
    else if c as int == 0x212A then 'k'
    else if c as int == 0x130 || c as int == 0x131 then 'i'
    else c
  }

  /** Case folding, for comparison with ASCII text. */
  function FoldedCase(c: char): char {
    if c as int == 0x130 || c as int == 0x131 then c else PatternCase(c)
  }

  function CaseFold(s: string): (r: string)
    ensures |r| == |s| && forall i :: 0 <= i < |s| ==> r[i] == FoldedCase(s[i])
  {
    seq(|s|, i requires 0 <= i < |s| => FoldedCase(s[i]))
  }

  // ------------------------------------------------------------- lines

  function LineLength(s: string): (n: nat)
    ensures n <= |s| && SingleLine(s[..n]) && (n < |s| ==> LineBreak(s[n]))
  {
    if s == [] || LineBreak(s[0]) then 0 else 1 + LineLength(s[1..])
  }

  /** A carriage return and the newline after it are one break. */
  function SplitLines(s: string): (r: seq<string>)
    ensures forall i :: 0 <= i < |r| ==> SingleLine(r[i])
    decreases |s|
  {
    if s == [] then []
    else
      var n := LineLength(s);
      if n == |s| then [s]
      else if s[n] == '\r' && n + 1 < |s| && s[n + 1] == '\n' then [s[..n]] + SplitLines(s[n + 2..])
      else [s[..n]] + SplitLines(s[n + 1..])
  }

  // ------------------------------------------------------------- headings

  const STATUS := "Status"
  const PROVIDER := "Provider"
  const CHANGED_PATHS := "Changed paths"
  const CHECKS := "Checks"
  const CONCERNS := "Remaining concerns"

  const NAMES: seq<string> := [STATUS, PROVIDER, CHANGED_PATHS, CHECKS, CONCERNS]

  predicate StartsWithName(s: string, name: string) {
    && |name| < |s| && s[|name|] == ':'
    && forall i :: 0 <= i < |name| ==> PatternCase(s[i]) == PatternCase(name[i])
  }

  /** The heading's name as it is written on the line. */
  function HeadingOf(line: string): (r: Option<string>)
    ensures r.Some? ==> |r.value| < |line| && r.value == line[..|r.value|]
  {
    if StartsWithName(line, STATUS) then Some(line[..|STATUS|])
    else if StartsWithName(line, PROVIDER) then Some(line[..|PROVIDER|])
    else if StartsWithName(line, CHANGED_PATHS) then Some(line[..|CHANGED_PATHS|])
    else if StartsWithName(line, CHECKS) then Some(line[..|CHECKS|])
    else if StartsWithName(line, CONCERNS) then Some(line[..|CONCERNS|])
    else None
  }

  datatype Section = Section(active: bool, values: seq<string>)

  /** One line of the document, for the section under `heading`. */
  function Read(s: Section, line: string, heading: string): Section {
    var text := Strip(line);
    match HeadingOf(text)
    case Some(name) =>
      var active := CaseFold(name) == CaseFold(heading);
      var inline := Strip(text[|name| + 1..]);
      Section(active, if active && inline != "" then s.values + [DropMarks(inline)] else s.values)
    case None => if s.active && text != "" then s.(values := s.values + [Strip(DropMarks(text))]) else s
  }

  function ReadAll(s: Section, lines: seq<string>, heading: string): Section
    decreases |lines|
  {
    if lines == [] then s else ReadAll(Read(s, lines[0], heading), lines[1..], heading)
  }

  function NonEmpty(values: seq<string>): (r: seq<string>)
    ensures |r| <= |values| && (|r| == |values| ==> r == values)
    ensures forall v :: v in r ==> v in values && v != ""
  {
    if values == [] then []
    else if values[0] == "" then NonEmpty(values[1..])
    else [values[0]] + NonEmpty(values[1..])
  }

  function SectionOf(lines: seq<string>, heading: string): seq<string> {
    NonEmpty(ReadAll(Section(false, []), lines, heading).values)
  }

  method SectionValues(text: string, heading: string) returns (r: seq<string>)
    ensures r == SectionOf(SplitLines(text), heading)
  {
    var lines := SplitLines(text);
    var values: seq<string> := [];
    var active := false;
    for i := 0 to |lines|
      invariant ReadAll(Section(active, values), lines[i..], heading) == ReadAll(Section(false, []), lines, heading)
    {
      var line := Strip(lines[i]);
      assert lines[i..][1..] == lines[i + 1..];
      match HeadingOf(line) {
        case Some(name) =>
          active := CaseFold(name) == CaseFold(heading);
          var inline := Strip(line[|name| + 1..]);
          if active && inline != "" {
            values := values + [DropMarks(inline)];
          }
        case None =>
          if active && line != "" {
            values := values + [Strip(DropMarks(line))];
          }
      }
    }
    r := NonEmpty(values);
  }

  // ------------------------------------------------------------- one-word fields

  predicate Token(s: string) {
    s != "" && forall i :: 0 <= i < |s| ==> !Space(s[i])
  }

  /** The leading characters up to the first space. */
  function FirstWord(s: string): (r: string)
    ensures r <= s && forall i :: 0 <= i < |r| ==> !Space(r[i])
    ensures s != [] && !Space(s[0]) ==> r != []
  {
    if s == [] || Space(s[0]) then [] else [s[0]] + FirstWord(s[1..])
  }

  /** The word after the name at the start of `s`; it may stand on a later line. */
  function TokenAt(s: string, name: string): (r: Option<string>)
    ensures r.Some? ==> Token(r.value)
  {
    if StartsWithName(s, name) then
      var rest := TrimLeft(s[|name| + 1..]);
      if rest == [] then None else Some(FirstWord(rest))
    else None
  }

  function NewlineAt(s: string): (n: nat)
    ensures n <= |s| && (n < |s| ==> s[n] == '\n') && '\n' !in s[..n]
  {
    if s == [] || s[0] == '\n' then 0 else 1 + NewlineAt(s[1..])
  }

  /** The first match at the start of the text or after a newline. */
  function FindToken(text: string, name: string): (r: Option<string>)
    ensures r.Some? ==> Token(r.value)
    decreases |text|
  {
    match TokenAt(text, name)
    case Some(word) => Some(word)
    case None => var n := NewlineAt(text); if n == |text| then None else FindToken(text[n + 1..], name)
  }

  // ------------------------------------------------------------- parsing

  /** A JSON member that should be an array of strings; `None` is an element of another type. */
  datatype JsonList = NotAList | JsonList(items: seq<Option<string>>)

  /** The evidence members of a JSON object; a missing status reads as the empty text. */
  datatype Payload = Payload(
    status: string, provider: Option<string>, changed: JsonList, checks: JsonList, concerns: JsonList)

  /** What a JSON loader makes of a text: an object with an evidence member, or anything else. */
  datatype Loaded = NoEvidence | Found(payload: Payload)

  type Loader = string -> Loaded

  function FirstFound(load: Loader, candidates: seq<string>): Option<Payload> {
    if candidates == [] then None
    else match load(candidates[0])
         case Found(payload) => Some(payload)
         case NoEvidence => FirstFound(load, candidates[1..])
  }

  function Reversed(lines: seq<string>): (r: seq<string>)
    ensures |r| == |lines| && forall i :: 0 <= i < |r| ==> r[i] == lines[|lines| - 1 - i]
  {
    if lines == [] then [] else Reversed(lines[1..]) + [lines[0]]
  }

  /** The last line that is evidence, or the whole text. */
  function FindPayload(load: Loader, text: string): Option<Payload> {
    FirstFound(load, Reversed(SplitLines(text)) + [text])
  }

  function JsonValues(list: JsonList): Option<seq<string>> {
    if list.NotAList? then None
    else if exists i :: 0 <= i < |list.items| && (list.items[i] == None || Blank(list.items[i].value)) then None
    else Some(StripAll(list.items))
  }

  function StripAll(items: seq<Option<string>>): (r: seq<string>)
    requires forall i :: 0 <= i < |items| ==> items[i].Some?
    ensures |r| == |items| && forall i :: 0 <= i < |r| ==> r[i] == Strip(items[i].value)
  {
    seq(|items|, i requires 0 <= i < |items| => Strip(items[i].value))
  }

  function FromPayload(p: Payload): Parsed {
    match (JsonValues(p.changed), JsonValues(p.checks), JsonValues(p.concerns))
    case (None, _, _) => Rejected(BadList(ChangedPaths))
    case (_, None, _) => Rejected(BadList(Checks))
    case (_, _, None) => Rejected(BadList(RemainingConcerns))
    case (Some(changed), Some(checks), Some(concerns)) =>
      var status := CaseFold(Strip(p.status));
      if status !in STATUSES then Rejected(NoStatus)
      else
        var provider := if p.provider.Some? then Some(Strip(p.provider.value)) else None;
        Parsed(WorkerEvidence(status, provider, changed, checks, if concerns == [] then ["None known"] else concerns))
  }

  function FromText(text: string): Parsed {
    var lines := SplitLines(text);
    match FindToken(text, STATUS)
    case None => Rejected(NoStatus)
    case Some(word) =>
      if CaseFold(word) !in STATUSES then Rejected(NoStatus)
      else Parsed(WorkerEvidence(CaseFold(word), FindToken(text, PROVIDER), SectionOf(lines, CHANGED_PATHS),
                                 SectionOf(lines, CHECKS), SectionOf(lines, CONCERNS)))
  }

  function Parse(load: Loader, text: string): Parsed {
    if Blank(text) then Rejected(EmptyResult)
    else match FindPayload(load, text)
         case Some(payload) => FromPayload(payload)
         case None => FromText(text)
  }

  method JsonPayload(load: Loader, text: string) returns (r: Option<Payload>)
    ensures r == FindPayload(load, text)
  {
    var lines := SplitLines(text);
    var candidates: seq<Loaded> := [];
    ghost var texts := Reversed(lines) + [text];
    for i := 0 to |lines|
      invariant |candidates| == i && forall k :: 0 <= k < i ==> candidates[k] == load(texts[k])
    {
      candidates := candidates + [load(lines[|lines| - 1 - i])];
    }
    candidates := candidates + [load(text)];
    for i := 0 to |candidates|
      invariant FirstFound(load, texts) == FirstFound(load, texts[i..])
    {
      assert texts[i..][1..] == texts[i + 1..];
      if candidates[i].Found? {
        return Some(candidates[i].payload);
      }
    }
    r := None;
  }

  method ParseWorkerResult(load: Loader, text: string) returns (r: Parsed)
    ensures r == Parse(load, text)
  {
    if Blank(text) {
      return Rejected(EmptyResult);
    }
    var payload := JsonPayload(load, text);
    if payload.Some? {
      return FromPayload(payload.value);
    }
    var status := FindToken(text, STATUS);
    var provider := FindToken(text, PROVIDER);
    var changed := SectionValues(text, CHANGED_PATHS);
    var checks := SectionValues(text, CHECKS);
    var concerns := SectionValues(text, CONCERNS);
    if status == None || CaseFold(status.value) !in STATUSES {
      return Rejected(NoStatus);
    }
    r := Parsed(WorkerEvidence(CaseFold(status.value), provider, changed, checks, concerns));
  }

  // ------------------------------------------------------------- the documented form

  function Bullets(items: seq<string>): (r: seq<string>)
    ensures |r| == |items| && forall i :: 0 <= i < |r| ==> r[i] == "- " + items[i]
  {
    if items == [] then [] else ["- " + items[0]] + Bullets(items[1..])
  }

  /** The plain form's lines; a missing provider leaves its line out. */
  function Header(e: WorkerEvidence): seq<string> {
    [STATUS + ": " + e.status] + if e.provider.Some? then [PROVIDER + ": " + e.provider.value] else []
  }

  function Lists(e: WorkerEvidence): seq<string> {
    [CHANGED_PATHS + ":"] + Bullets(e.changed) + ([CHECKS + ":"] + Bullets(e.checks)
      + ([CONCERNS + ":"] + Bullets(e.concerns)))
  }

  function Join(lines: seq<string>): string {
    if lines == [] then "" else lines[0] + "\n" + Join(lines[1..])
  }

  function Render(e: WorkerEvidence): string {
    Join(Header(e) + Lists(e))
  }

  /** An item that the plain form can carry: one line, trimmed, and no list mark in front. */
  predicate PlainItem(s: string) {
    s != "" && SingleLine(s) && !Space(s[0]) && !Space(Last(s)) && s[0] != '-'
  }

  predicate PlainItems(items: seq<string>) {
    forall i :: 0 <= i < |items| ==> PlainItem(items[i])
  }

  predicate Plain(e: WorkerEvidence) {
    && e.status in STATUSES
    && (e.provider.Some? ==> Token(e.provider.value))
    && PlainItems(e.changed) && PlainItems(e.checks) && PlainItems(e.concerns)
  }

  // ------------------------------------------------------------- splitting and joining

  lemma {:induction false} LineLengthOf(line: string, rest: string)
    requires SingleLine(line)
    ensures LineLength(line + "\n" + rest) == |line|
  {
    var s := line + "\n" + rest;
    if line != "" {
      assert s[1..] == line[1..] + "\n" + rest;
      LineLengthOf(line[1..], rest);
    }
  }

  lemma {:induction false} SplitFirst(line: string, rest: string)
    requires SingleLine(line)
    ensures SplitLines(line + "\n" + rest) == [line] + SplitLines(rest)
  {
    var s := line + "\n" + rest;
    LineLengthOf(line, rest);
    assert s[|line|] == '\n' && s[..|line|] == line && s[|line| + 1..] == rest;
  }

  lemma {:induction false} SplitJoined(lines: seq<string>)
    requires forall i :: 0 <= i < |lines| ==> SingleLine(lines[i])
    ensures SplitLines(Join(lines)) == lines
  {
    if lines != [] {
      SplitFirst(lines[0], Join(lines[1..]));
      SplitJoined(lines[1..]);
    }
  }

  lemma {:induction false} ReadAllAppend(s: Section, first: seq<string>, second: seq<string>, heading: string)
    ensures ReadAll(s, first + second, heading) == ReadAll(ReadAll(s, first, heading), second, heading)
    decreases |first|
  {
    if first == [] {
      assert first + second == second;
    } else {
      assert (first + second)[1..] == first[1..] + second;
      ReadAllAppend(Read(s, first[0], heading), first[1..], second, heading);
    }
  }

  /** What a bulleted line contributes to an open section. */
  function Bulleted(item: string): string {
    Strip(DropMarks(Strip("- " + item)))
  }

  function BulletedAll(items: seq<string>): (r: seq<string>)
    ensures |r| == |items| && forall i :: 0 <= i < |r| ==> r[i] == Bulleted(items[i])
  {
    Map(Bulleted, items)
  }

  lemma {:induction false} NotTheName(text: string, name: string)
    requires text != "" && text[0] == '-' && name != "" && PatternCase(name[0]) != '-'
    ensures !StartsWithName(text, name)
  {
    assert PatternCase('-') == '-';
  }

  lemma {:induction false} DashIsNoHeading(text: string)
    requires text != "" && text[0] == '-'
    ensures HeadingOf(text) == None
  {
    forall name | name in NAMES ensures !StartsWithName(text, name) {
      NameLetters(name);
      NotTheName(text, name);
    }
    assert STATUS in NAMES && PROVIDER in NAMES && CHANGED_PATHS in NAMES && CHECKS in NAMES && CONCERNS in NAMES;
  }

  /** A line that starts with a dash is not blank. */
  lemma {:induction false} DashStays(item: string)
    ensures var text := Strip("- " + item); text != "" && text[0] == '-'
  {
    var line := "- " + item;
    assert line[0] == '-' && TrimLeft(line) == line;
    assert TrimRight(line)[0] == '-';
  }

  lemma {:induction false} ReadBullet(s: Section, item: string, heading: string)
    ensures Read(s, "- " + item, heading)
         == Section(s.active, if s.active then s.values + [Bulleted(item)] else s.values)
  {
    DashStays(item);
    DashIsNoHeading(Strip("- " + item));
  }

  lemma {:induction false} ReadFirst(s: Section, next: Section, line: string, rest: seq<string>, heading: string)
    requires Read(s, line, heading) == next
    ensures ReadAll(s, [line] + rest, heading) == ReadAll(next, rest, heading)
  {
    assert ([line] + rest)[1..] == rest;
  }

  /** The first bullet's contribution, with its text abstracted. */
  lemma {:induction false} FirstBullet(s: Section, items: seq<string>, heading: string)
    returns (value: string, next: Section)
    requires items != []
    ensures next == Section(s.active, if s.active then s.values + [value] else s.values)
    ensures ReadAll(s, Bullets(items), heading) == ReadAll(next, Bullets(items[1..]), heading)
    ensures BulletedAll(items) == [value] + BulletedAll(items[1..])
  {
    value := Bulleted(items[0]);
    next := Section(s.active, if s.active then s.values + [value] else s.values);
    MapCons(Bulleted, items);
    ReadBullet(s, items[0], heading);
    ReadFirst(s, next, "- " + items[0], Bullets(items[1..]), heading);
  }

  lemma {:induction false} ReadBullets(s: Section, items: seq<string>, heading: string)
    ensures ReadAll(s, Bullets(items), heading)
         == Section(s.active, if s.active then s.values + BulletedAll(items) else s.values)
    decreases |items|
  {
    if items != [] {
      var value, next := FirstBullet(s, items, heading);
      ReadBullets(next, items[1..], heading);
      Regroup(s.values, value, BulletedAll(items[1..]));
    }
  }

  lemma {:induction false} Regroup(values: seq<string>, value: string, rest: seq<string>)
    ensures values + [value] + rest == values + ([value] + rest)
  {}

  lemma {:induction false} DropsTwo(item: string)
    requires PlainItem(item)
    ensures DropMarks("- " + item) == item
  {
    var line := "- " + item;
    assert line[1..][1..] == item && line[0] == '-' && line[1..][0] == ' ';
    assert DropMarks(line[1..]) == DropMarks(item) == item;
  }

  /** A bulleted item reads back as itself, and is not dropped, exactly when it is plain. */
  lemma {:induction false} BulletedIff(item: string)
    requires SingleLine(item)
    ensures item != "" && Bulleted(item) == item <==> PlainItem(item)
  {
    var line := "- " + item;
    if PlainItem(item) {
      assert Last(line) == Last(item);
      DropsTwo(item);
    }
    if item != "" && Bulleted(item) == item {
      assert !Space(item[0]) && !Space(Last(item));
      assert Last(line) == Last(item) && Strip(line) == line;
      assert DropMarks(line) == DropMarks(line[1..]) == DropMarks(line[1..][1..]) && line[1..][1..] == item;
    }
  }

  lemma {:induction false} ItemsIff(items: seq<string>)
    requires forall i :: 0 <= i < |items| ==> SingleLine(items[i])
    ensures NonEmpty(BulletedAll(items)) == items <==> PlainItems(items)
  {
    var all := BulletedAll(items);
    forall i | 0 <= i < |items| ensures items[i] != "" && all[i] == items[i] <==> PlainItem(items[i]) {
      BulletedIff(items[i]);
    }
    if NonEmpty(all) == items {
      assert all == items;
      forall i | 0 <= i < |items| ensures items[i] != "" {
        assert items[i] in NonEmpty(all);
      }
    }
    if PlainItems(items) {
      assert all == items;
      AllKept(items);
    }
  }

  lemma {:induction false} AllKept(values: seq<string>)
    requires "" !in values
    ensures NonEmpty(values) == values
  {
    if values != [] {
      AllKept(values[1..]);
    }
  }

  // ------------------------------------------------------------- heading lines

  /** The five names differ in their first or third letter. */
  lemma {:induction false} NameLetters(name: string)
    requires name in NAMES
    ensures |name| > 2 && !Space(name[0]) && SingleLine(name)
    ensures name == STATUS <==> PatternCase(name[0]) == 's'
    ensures name == PROVIDER <==> PatternCase(name[0]) == 'p'
    ensures name == CONCERNS <==> PatternCase(name[0]) == 'r'
    ensures name == CHANGED_PATHS <==> PatternCase(name[0]) == 'c' && PatternCase(name[2]) == 'a'
    ensures name == CHECKS <==> PatternCase(name[0]) == 'c' && PatternCase(name[2]) == 'e'
  {
    assert STATUS[0] == 'S' && PROVIDER[0] == 'P' && CONCERNS[0] == 'R' && CHANGED_PATHS[0] == CHECKS[0] == 'C';
    assert CHANGED_PATHS[2] == 'a' && CHECKS[2] == 'e';
  }

  lemma {:induction false} OneName(s: string, name: string, other: string)
    requires name in NAMES && other in NAMES && StartsWithName(s, name) && StartsWithName(s, other)
    ensures name == other
  {
    NameLetters(name);
    NameLetters(other);
    assert PatternCase(s[0]) == PatternCase(name[0]) == PatternCase(other[0]);
    assert PatternCase(s[2]) == PatternCase(name[2]) == PatternCase(other[2]);
  }

  lemma {:induction false} HeadingIs(name: string, rest: string)
    requires name in NAMES
    ensures HeadingOf(name + ":" + rest) == Some(name)
  {
    var text := name + ":" + rest;
    assert text[..|name|] == name && text[|name|] == ':' && StartsWithName(text, name);
    forall other | other in NAMES && StartsWithName(text, other) ensures other == name {
      OneName(text, name, other);
    }
    assert STATUS in NAMES && PROVIDER in NAMES && CHANGED_PATHS in NAMES && CHECKS in NAMES && CONCERNS in NAMES;
  }

  lemma {:induction false} SameFold(name: string, heading: string)
    requires name in NAMES && heading in NAMES
    ensures CaseFold(name) == CaseFold(heading) <==> name == heading
  {
    NameLetters(name);
    NameLetters(heading);
    if CaseFold(name) == CaseFold(heading) {
      assert CaseFold(name)[0] == CaseFold(heading)[0] && CaseFold(name)[2] == CaseFold(heading)[2];
    }
  }

  /** A heading line opens the section of that name and closes any other. */
  lemma {:induction false} ReadHeading(s: Section, name: string, rest: string, heading: string)
    requires name in NAMES && heading in NAMES
    requires rest == "" || (name != heading && !Space(Last(rest)))
    ensures Read(s, name + ":" + rest, heading) == Section(name == heading, s.values)
  {
    var text := name + ":" + rest;
    NameLetters(name);
    assert text[0] == name[0] && Last(text) == if rest == "" then ':' else Last(rest);
    assert Strip(text) == text;
    HeadingIs(name, rest);
    SameFold(name, heading);
    assert text[|name| + 1..] == rest;
  }

  /** What one list of the plain form adds to the section under `heading`. */
  function Gather(s: Section, name: string, items: seq<string>, heading: string): Section {
    Section(name == heading, if name == heading then s.values + BulletedAll(items) else s.values)
  }

  lemma {:induction false} ReadList(s: Section, name: string, items: seq<string>, rest: seq<string>, heading: string)
    requires name in NAMES && heading in NAMES
    ensures ReadAll(s, [name + ":"] + Bullets(items) + rest, heading)
         == ReadAll(Gather(s, name, items, heading), rest, heading)
  {
    var line := name + ":";
    assert line + "" == line;
    ReadHeading(s, name, "", heading);
    var begun := Section(name == heading, s.values);
    ReadAllAppend(s, [line] + Bullets(items), rest, heading);
    assert ([line] + Bullets(items))[1..] == Bullets(items);
    ReadBullets(begun, items, heading);
  }

  lemma {:induction false} ReadLists(e: WorkerEvidence, heading: string)
    requires heading in NAMES
    ensures ReadAll(Section(false, []), Lists(e), heading)
         == Gather(Gather(Gather(Section(false, []), CHANGED_PATHS, e.changed, heading), CHECKS, e.checks, heading),
                   CONCERNS, e.concerns, heading)
  {
    assert CHANGED_PATHS in NAMES && CHECKS in NAMES && CONCERNS in NAMES;
    var concerns := [CONCERNS + ":"] + Bullets(e.concerns);
    var checks := [CHECKS + ":"] + Bullets(e.checks) + concerns;
    var none := Section(false, []);
    ReadList(none, CHANGED_PATHS, e.changed, checks, heading);
    ReadList(Gather(none, CHANGED_PATHS, e.changed, heading), CHECKS, e.checks, concerns, heading);
    ReadList(Gather(Gather(none, CHANGED_PATHS, e.changed, heading), CHECKS, e.checks, heading),
             CONCERNS, e.concerns, [], heading);
    assert concerns + [] == concerns;
  }

  /** A line of the header is a heading of its own and contributes nothing to the lists. */
  lemma {:induction false} ReadWord(s: Section, name: string, word: string, heading: string)
    requires name in {STATUS, PROVIDER} && heading in {CHANGED_PATHS, CHECKS, CONCERNS} && Token(word)
    ensures Read(s, name + ": " + word, heading) == Section(false, s.values)
  {
    assert name in NAMES && heading in NAMES;
    NameLetters(heading);
    NameLetters(name);
    assert name + ": " + word == name + ":" + (" " + word);
    ReadHeading(s, name, " " + word, heading);
  }

  lemma {:induction false} ReadHeader(e: WorkerEvidence, heading: string)
    requires heading in {CHANGED_PATHS, CHECKS, CONCERNS}
    requires Token(e.status) && (e.provider.Some? ==> Token(e.provider.value))
    ensures ReadAll(Section(false, []), Header(e) + Lists(e), heading) == ReadAll(Section(false, []), Lists(e), heading)
  {
    var none := Section(false, []);
    ReadWord(none, STATUS, e.status, heading);
    ReadAllAppend(none, Header(e), Lists(e), heading);
    if e.provider.Some? {
      ReadWord(none, PROVIDER, e.provider.value, heading);
      assert Header(e)[1..] == [PROVIDER + ": " + e.provider.value];
    }
  }

  lemma {:induction false} SectionRendered(e: WorkerEvidence, heading: string)
    requires heading in {CHANGED_PATHS, CHECKS, CONCERNS}
    requires Token(e.status) && (e.provider.Some? ==> Token(e.provider.value))
    ensures SectionOf(Header(e) + Lists(e), heading)
         == NonEmpty(BulletedAll(if heading == CHANGED_PATHS then e.changed else if heading == CHECKS then e.checks
                                 else e.concerns))
  {
    ReadHeader(e, heading);
    ReadLists(e, heading);
    NameLetters(heading);
    assert forall items :: [] + BulletedAll(items) == BulletedAll(items);
  }

  // ------------------------------------------------------------- words of the header

  lemma {:induction false} NewlineAfter(line: string, rest: string)
    requires '\n' !in line
    ensures NewlineAt(line + "\n" + rest) == |line|
  {
    var s := line + "\n" + rest;
    if line != "" {
      assert s[1..] == line[1..] + "\n" + rest;
      NewlineAfter(line[1..], rest);
    }
  }

  lemma {:induction false} SkipLine(line: string, rest: string, name: string)
    requires '\n' !in line && !StartsWithName(line + "\n" + rest, name)
    ensures FindToken(line + "\n" + rest, name) == FindToken(rest, name)
  {
    NewlineAfter(line, rest);
    assert (line + "\n" + rest)[|line| + 1..] == rest;
  }

  lemma {:induction false} FirstWordOf(word: string, rest: string)
    requires forall i :: 0 <= i < |word| ==> !Space(word[i])
    ensures FirstWord(word + "\n" + rest) == word
  {
    var s := word + "\n" + rest;
    if word != "" {
      assert s[1..] == word[1..] + "\n" + rest;
      FirstWordOf(word[1..], rest);
    }
  }

  lemma {:induction false} FindFirst(name: string, word: string, rest: string)
    requires Token(word)
    ensures FindToken(name + ": " + word + "\n" + rest, name) == Some(word)
  {
    var s := name + ": " + word + "\n" + rest;
    var after := word + "\n" + rest;
    assert s[|name|] == ':' && s[..|name|] == name && StartsWithName(s, name);
    assert s[|name| + 1..] == " " + after && (" " + after)[1..] == after;
    assert TrimLeft(" " + after) == TrimLeft(after) == after;
    FirstWordOf(word, rest);
  }

  /** Lines that the rendering writes after the header. */
  predicate ListLine(line: string) {
    line != "" && line[0] in {'C', 'R', '-'}
  }

  lemma {:induction false} ListLines(e: WorkerEvidence)
    ensures forall i :: 0 <= i < |Lists(e)| ==> ListLine(Lists(e)[i])
  {
    assert CHANGED_PATHS[0] == 'C' && CHECKS[0] == 'C' && CONCERNS[0] == 'R';
  }

  lemma {:induction false} NoProvider(lines: seq<string>)
    requires forall i :: 0 <= i < |lines| ==> ListLine(lines[i]) && SingleLine(lines[i])
    ensures FindToken(Join(lines), PROVIDER) == None
  {
    assert PROVIDER[0] == 'P';
    if lines != [] {
      SkipLine(lines[0], Join(lines[1..]), PROVIDER);
      NoProvider(lines[1..]);
    }
  }

  predicate SingleLines(items: seq<string>) {
    forall i :: 0 <= i < |items| ==> SingleLine(items[i])
  }

  lemma {:induction false} ListsAreLines(e: WorkerEvidence)
    requires SingleLines(e.changed) && SingleLines(e.checks) && SingleLines(e.concerns)
    ensures SingleLines(Lists(e))
  {
    assert CHANGED_PATHS in NAMES && CHECKS in NAMES && CONCERNS in NAMES;
    NameLetters(CHANGED_PATHS);
    NameLetters(CHECKS);
    NameLetters(CONCERNS);
  }

  lemma {:induction false} FoldedStatus(status: string)
    requires status in STATUSES
    ensures CaseFold(status) == status && Token(status)
  {
    assert forall i :: 0 <= i < |status| ==> 'a' <= status[i] <= 'z';
  }

  /** The status line is found, and looking for the provider goes past it. */
  lemma {:induction false} StatusLine(status: string, rest: string)
    requires Token(status)
    ensures FindToken(STATUS + ": " + status + "\n" + rest, STATUS) == Some(status)
    ensures FindToken(STATUS + ": " + status + "\n" + rest, PROVIDER) == FindToken(rest, PROVIDER)
  {
    FindFirst(STATUS, status, rest);
    assert STATUS[0] == 'S' && PROVIDER[0] == 'P';
    assert (STATUS + ": " + status + "\n" + rest)[0] == 'S';
    SkipLine(STATUS + ": " + status, rest, PROVIDER);
  }

  lemma {:induction false} ProviderLine(e: WorkerEvidence)
    requires (e.provider.Some? ==> Token(e.provider.value)) && SingleLines(Lists(e))
    ensures FindToken(Join(Header(e)[1..] + Lists(e)), PROVIDER) == e.provider
  {
    var rest := Header(e)[1..] + Lists(e);
    if e.provider.Some? {
      var line := PROVIDER + ": " + e.provider.value;
      assert rest[0] == line && rest[1..] == Lists(e);
      FindFirst(PROVIDER, e.provider.value, Join(Lists(e)));
    } else {
      assert rest == Lists(e);
      ListLines(e);
      NoProvider(Lists(e));
    }
  }

  lemma {:induction false} RenderedFirst(e: WorkerEvidence)
    ensures Render(e) == STATUS + ": " + e.status + "\n" + Join(Header(e)[1..] + Lists(e))
  {
    var all := Header(e) + Lists(e);
    assert all[0] == STATUS + ": " + e.status && all[1..] == Header(e)[1..] + Lists(e);
  }

  lemma {:induction false} HeaderWords(e: WorkerEvidence)
    requires Token(e.status) && (e.provider.Some? ==> Token(e.provider.value)) && SingleLines(Lists(e))
    ensures FindToken(Render(e), STATUS) == Some(e.status) && FindToken(Render(e), PROVIDER) == e.provider
  {
    RenderedFirst(e);
    StatusLine(e.status, Join(Header(e)[1..] + Lists(e)));
    ProviderLine(e);
  }

  // ------------------------------------------------------------- round trip

  /** What the rendering of single-line items reads back as. */
  lemma {:induction false} ParseRendered(e: WorkerEvidence)
    requires e.status in STATUSES && (e.provider.Some? ==> Token(e.provider.value))
    requires SingleLines(e.changed) && SingleLines(e.checks) && SingleLines(e.concerns)
    ensures FromText(Render(e))
         == Parsed(e.(changed := NonEmpty(BulletedAll(e.changed)), checks := NonEmpty(BulletedAll(e.checks)),
                      concerns := NonEmpty(BulletedAll(e.concerns))))
  {
    FoldedStatus(e.status);
    ListsAreLines(e);
    HeaderWords(e);
    HeaderIsLines(e);
    SplitJoined(Header(e) + Lists(e));
    SectionRendered(e, CHANGED_PATHS);
    SectionRendered(e, CHECKS);
    SectionRendered(e, CONCERNS);
    NameLetters(CHECKS);
    NameLetters(CONCERNS);
  }

  lemma {:induction false} HeaderIsLines(e: WorkerEvidence)
    requires Token(e.status) && (e.provider.Some? ==> Token(e.provider.value))
    ensures SingleLines(Header(e))
  {
    assert STATUS in NAMES && PROVIDER in NAMES;
    NameLetters(STATUS);
    NameLetters(PROVIDER);
  }

  lemma {:induction false} ReadKeepsSingleLines(s: Section, lines: seq<string>, heading: string)
    requires SingleLines(s.values) && SingleLines(lines)
    ensures SingleLines(ReadAll(s, lines, heading).values)
    decreases |lines|
  {
    if lines != [] {
      ReadKeepsSingleLines(Read(s, lines[0], heading), lines[1..], heading);
    }
  }

  lemma {:induction false} SectionSingleLines(lines: seq<string>, heading: string)
    requires SingleLines(lines)
    ensures SingleLines(SectionOf(lines, heading))
  {
    var values := ReadAll(Section(false, []), lines, heading).values;
    ReadKeepsSingleLines(Section(false, []), lines, heading);
    forall i | 0 <= i < |NonEmpty(values)| ensures SingleLine(NonEmpty(values)[i]) {
      assert NonEmpty(values)[i] in values;
    }
  }

  /** Whatever the text says, what it parses to has single-line items, one-word fields and
      a known status. */
  lemma {:induction false} FromTextShape(text: string)
    ensures FromText(text).Parsed? ==> var e := FromText(text).evidence;
            && e.status in STATUSES && (e.provider.Some? ==> Token(e.provider.value))
            && SingleLines(e.changed) && SingleLines(e.checks) && SingleLines(e.concerns)
  {
    var lines := SplitLines(text);
    SectionSingleLines(lines, CHANGED_PATHS);
    SectionSingleLines(lines, CHECKS);
    SectionSingleLines(lines, CONCERNS);
  }

  /** The plain form carries evidence faithfully exactly when it is plain, whatever heading
      words its items contain, as long as no line of the text loads as JSON evidence. */
  lemma {:induction false} TextRoundTripIff(load: Loader, e: WorkerEvidence)
    requires FindPayload(load, Render(e)) == None
    ensures Parse(load, Render(e)) == Parsed(e) <==> Plain(e)
  {
    RenderedIsNotBlank(e);
    if FromText(Render(e)) == Parsed(e) {
      FromTextShape(Render(e));
    }
    if Plain(e) || FromText(Render(e)) == Parsed(e) {
      ParseRendered(e);
      ItemsIff(e.changed);
      ItemsIff(e.checks);
      ItemsIff(e.concerns);
    }
  }

  lemma {:induction false} RenderedIsNotBlank(e: WorkerEvidence)
    ensures Render(e) != "" && Render(e)[0] == 'S' && !Blank(Render(e))
  {
    assert STATUS[0] == 'S';
    assert (Header(e) + Lists(e))[0] == STATUS + ": " + e.status;
    assert !Space(Render(e)[0]);
  }

  /** A JSON object's text starts with a brace. */
  ghost predicate ReadsObjects(load: Loader) {
    forall t :: load(t).Found? ==> TrimLeft(t) != "" && TrimLeft(t)[0] == '{'
  }

  /** With any such loader every plain evidence survives the text form. */
  lemma {:induction false} TextRoundTrip(load: Loader, e: WorkerEvidence)
    requires ReadsObjects(load) && Plain(e)
    ensures Parse(load, Render(e)) == Parsed(e)
  {
    NoPayload(load, e);
    TextRoundTripIff(load, e);
  }

  /** A line of the plain form starts with a heading's letter or a dash. */
  predicate FormLine(line: string) {
    line != "" && line[0] in {'S', 'P', 'C', 'R', '-'}
  }

  lemma {:induction false} FormLines(e: WorkerEvidence)
    ensures forall i :: 0 <= i < |Header(e) + Lists(e)| ==> FormLine((Header(e) + Lists(e))[i])
  {
    ListLines(e);
    assert STATUS[0] == 'S' && PROVIDER[0] == 'P';
  }

  /** No candidate of the plain form loads as an object. */
  lemma {:induction false} NoPayload(load: Loader, e: WorkerEvidence)
    requires ReadsObjects(load) && Plain(e)
    ensures FindPayload(load, Render(e)) == None
  {
    var lines := Header(e) + Lists(e);
    FoldedStatus(e.status);
    HeaderIsLines(e);
    ListsAreLines(e);
    SplitJoined(lines);
    RenderedIsNotBlank(e);
    FormLines(e);
    NothingFound(load, Reversed(lines) + [Render(e)]);
  }

  lemma {:induction false} NothingFound(load: Loader, candidates: seq<string>)
    requires ReadsObjects(load)
    requires forall i :: 0 <= i < |candidates| ==> FormLine(candidates[i])
    ensures FirstFound(load, candidates) == None
  {
    if candidates != [] {
      assert TrimLeft(candidates[0]) == candidates[0];
      NothingFound(load, candidates[1..]);
    }
  }

  // ------------------------------------------------------------- the JSON form

  function Texts(items: seq<string>): (r: JsonList)
    ensures r.JsonList? && |r.items| == |items| && forall i :: 0 <= i < |items| ==> r.items[i] == Some(items[i])
  {
    JsonList(seq(|items|, i requires 0 <= i < |items| => Some(items[i])))
  }

  function ToPayload(e: WorkerEvidence): Payload {
    Payload(e.status, e.provider, Texts(e.changed), Texts(e.checks), Texts(e.concerns))
  }

  predicate Trimmed(s: string) {
    Strip(s) == s
  }

  predicate TrimmedItems(items: seq<string>) {
    forall i :: 0 <= i < |items| ==> items[i] != "" && Trimmed(items[i])
  }

  lemma {:induction false} JsonItemsIff(items: seq<string>)
    ensures JsonValues(Texts(items)) == Some(items) <==> TrimmedItems(items)
  {
    var list := Texts(items);
    if JsonValues(list) == Some(items) {
      forall i | 0 <= i < |items| ensures items[i] != "" && Trimmed(items[i]) {
        assert items[i] == StripAll(list.items)[i];
        assert !Blank(list.items[i].value);
      }
    }
    if TrimmedItems(items) {
      forall i | 0 <= i < |items| ensures list.items[i] != None && !Blank(list.items[i].value) {
        assert items[i] != "" && Trimmed(items[i]);
      }
      assert StripAll(list.items) == items;
    }
  }

  /** The JSON form carries more: items only have to be trimmed.  It never carries an empty
      list of concerns, which reads as `None known`. */
  lemma {:induction false} JsonRoundTripIff(e: WorkerEvidence)
    ensures FromPayload(ToPayload(e)) == Parsed(e)
       <==> (&& e.status in STATUSES && (e.provider.Some? ==> Trimmed(e.provider.value))
             && TrimmedItems(e.changed) && TrimmedItems(e.checks) && TrimmedItems(e.concerns) && e.concerns != [])
  {
    JsonItemsIff(e.changed);
    JsonItemsIff(e.checks);
    JsonItemsIff(e.concerns);
    if e.status in STATUSES {
      FoldedStatus(e.status);
      assert Strip(e.status) == e.status;
    }
  }

  // ------------------------------------------------------------- any way of writing it

  /** The same letters in any case. */
  predicate Spells(s: string, name: string) {
    && |s| == |name|
    && forall i :: 0 <= i < |s| ==>
         || s[i] == name[i]
         || ('a' <= name[i] <= 'z' && s[i] as int == name[i] as int - 32)
         || ('A' <= name[i] <= 'Z' && s[i] as int == name[i] as int + 32)
  }

  /** Dashes and spaces. */
  predicate Marks(s: string) {
    forall i :: 0 <= i < |s| ==> s[i] in {'-', ' '}
  }

  /** An item after any list mark; without a dash it must not read as a heading itself. */
  datatype Item = Item(marks: string, text: string)

  predicate Written(item: Item) {
    Marks(item.marks) && PlainItem(item.text) && ('-' in item.marks || HeadingOf(item.text) == None)
  }

  /** A heading, the item that may stand on its line, and the items below it. */
  datatype Block = Block(name: string, spelling: string, inline: Option<string>, items: seq<Item>)

  predicate WrittenBlock(b: Block) {
    && b.name in NAMES && Spells(b.spelling, b.name)
    && (b.inline.Some? ==> PlainItem(b.inline.value))
    && forall i :: 0 <= i < |b.items| ==> Written(b.items[i])
  }

  function ItemLines(items: seq<Item>): (r: seq<string>)
    ensures |r| == |items| && forall i :: 0 <= i < |r| ==> r[i] == items[i].marks + items[i].text
  {
    Map((item: Item) => item.marks + item.text, items)
  }

  function ItemTexts(items: seq<Item>): (r: seq<string>)
    ensures |r| == |items| && forall i :: 0 <= i < |r| ==> r[i] == items[i].text
  {
    Map((item: Item) => item.text, items)
  }

  function HeadingLine(b: Block): string {
    b.spelling + ":" + if b.inline.Some? then " " + b.inline.value else ""
  }

  function BlockLines(b: Block): seq<string> {
    [HeadingLine(b)] + ItemLines(b.items)
  }

  /** What the block says about the section under `heading`. */
  function BlockItems(b: Block, heading: string): seq<string> {
    if b.name != heading then [] else (if b.inline.Some? then [b.inline.value] else []) + ItemTexts(b.items)
  }

  function Lines(blocks: seq<Block>): seq<string> {
    if blocks == [] then [] else BlockLines(blocks[0]) + Lines(blocks[1..])
  }

  /** What a reader of the document finds under a heading. */
  function Under(blocks: seq<Block>, heading: string): seq<string> {
    if blocks == [] then [] else BlockItems(blocks[0], heading) + Under(blocks[1..], heading)
  }

  lemma {:induction false} SpelledFolds(s: string, name: string)
    requires Spells(s, name) && forall i :: 0 <= i < |name| ==> name[i] as int < 128
    ensures forall i :: 0 <= i < |s| ==> PatternCase(s[i]) == PatternCase(name[i])
    ensures CaseFold(s) == CaseFold(name)
  {}

  lemma {:induction false} NamesAreAscii(name: string)
    requires name in NAMES
    ensures forall i :: 0 <= i < |name| ==> name[i] as int < 128
  {}

  lemma {:induction false} SpelledHeading(spelling: string, name: string, rest: string)
    requires name in NAMES && Spells(spelling, name)
    ensures HeadingOf(spelling + ":" + rest) == Some(spelling)
  {
    var text := spelling + ":" + rest;
    NamesAreAscii(name);
    SpelledFolds(spelling, name);
    assert text[..|name|] == spelling && StartsWithName(text, name);
    forall other | other in NAMES && StartsWithName(text, other) ensures other == name {
      OneName(text, name, other);
    }
    assert STATUS in NAMES && PROVIDER in NAMES && CHANGED_PATHS in NAMES && CHECKS in NAMES && CONCERNS in NAMES;
  }

  lemma {:induction false} SpelledFirst(spelling: string, name: string)
    requires name in NAMES && Spells(spelling, name)
    ensures spelling != "" && !Space(spelling[0])
  {
    NameLetters(name);
    NamesAreAscii(name);
    SpelledFolds(spelling, name);
  }

  lemma {:induction false} ReadHeadingLine(s: Section, b: Block, heading: string)
    requires WrittenBlock(b) && heading in NAMES
    ensures Read(s, HeadingLine(b), heading)
         == Section(b.name == heading,
                    if b.name == heading && b.inline.Some? then s.values + [b.inline.value] else s.values)
  {
    var text := HeadingLine(b);
    var rest := text[|b.spelling| + 1..];
    SpelledFirst(b.spelling, b.name);
    assert text[0] == b.spelling[0] && text == b.spelling + ":" + rest;
    assert rest == if b.inline.Some? then " " + b.inline.value else "";
    assert b.inline.Some? ==> Last(text) == Last(b.inline.value);
    assert Strip(text) == text;
    SpelledHeading(b.spelling, b.name, rest);
    NamesAreAscii(b.name);
    SpelledFolds(b.spelling, b.name);
    SameFold(b.name, heading);
    if b.inline.Some? {
      StripSpaced(b.inline.value);
    }
  }

  lemma {:induction false} StripSpaced(item: string)
    requires PlainItem(item)
    ensures Strip(" " + item) == item && DropMarks(item) == item
  {
    assert (" " + item)[1..] == item;
    assert TrimLeft(" " + item) == TrimLeft(item) == item;
  }

  lemma {:induction false} DropsMarks(marks: string, text: string)
    requires Marks(marks) && PlainItem(text)
    ensures DropMarks(marks + text) == text
  {
    if marks == "" {
      assert marks + text == text;
    } else {
      assert (marks + text)[1..] == marks[1..] + text;
      DropsMarks(marks[1..], text);
    }
  }

  /** Stripping takes spaces off the marks, and leaves a dash in front if there was one. */
  lemma {:induction false} StripsMarks(marks: string, text: string) returns (left: string)
    requires Marks(marks) && PlainItem(text)
    ensures Marks(left) && Strip(marks + text) == left + text
    ensures if '-' in marks then left != "" && left[0] == '-' else left == ""
  {
    var line := marks + text;
    if marks == "" {
      left := "";
      assert line == text && left + text == text;
    } else if marks[0] == '-' {
      left := marks;
      assert line[0] == '-' && Last(line) == Last(text);
    } else {
      assert line[1..] == marks[1..] + text;
      left := StripsMarks(marks[1..], text);
      assert '-' in marks <==> '-' in marks[1..];
      assert TrimLeft(line) == TrimLeft(line[1..]);
    }
  }

  lemma {:induction false} ReadItem(s: Section, item: Item, heading: string)
    requires Written(item)
    ensures Read(s, item.marks + item.text, heading)
         == Section(s.active, if s.active then s.values + [item.text] else s.values)
  {
    var left := StripsMarks(item.marks, item.text);
    var text := left + item.text;
    assert text != "";
    if left != "" {
      assert text[0] == '-';
      DashIsNoHeading(text);
    } else {
      assert text == item.text;
    }
    DropsMarks(left, item.text);
    assert Strip(item.text) == item.text;
  }

  lemma {:induction false} ReadItems(s: Section, items: seq<Item>, heading: string)
    requires forall i :: 0 <= i < |items| ==> Written(items[i])
    ensures ReadAll(s, ItemLines(items), heading)
         == Section(s.active, if s.active then s.values + ItemTexts(items) else s.values)
    decreases |items|
  {
    if items != [] {
      var line, text := items[0].marks + items[0].text, items[0].text;
      var next := Section(s.active, if s.active then s.values + [text] else s.values);
      assert ItemLines(items) == [line] + ItemLines(items[1..]);
      assert ItemTexts(items) == [text] + ItemTexts(items[1..]);
      ReadItem(s, items[0], heading);
      ReadFirst(s, next, line, ItemLines(items[1..]), heading);
      ReadItems(next, items[1..], heading);
      Regroup(s.values, text, ItemTexts(items[1..]));
    }
  }

  lemma {:induction false} ReadBlock(s: Section, b: Block, heading: string) returns (active: bool)
    requires WrittenBlock(b) && heading in NAMES
    ensures ReadAll(s, BlockLines(b), heading) == Section(active, s.values + BlockItems(b, heading))
  {
    active := b.name == heading;
    var line := HeadingLine(b);
    var begun := if active && b.inline.Some? then s.values + [b.inline.value] else s.values;
    ReadHeadingLine(s, b, heading);
    ReadFirst(s, Section(active, begun), line, ItemLines(b.items), heading);
    ReadItems(Section(active, begun), b.items, heading);
    BlockAdds(s.values, begun, b, heading);
  }

  lemma {:induction false} BlockAdds(values: seq<string>, begun: seq<string>, b: Block, heading: string)
    requires begun == if b.name == heading && b.inline.Some? then values + [b.inline.value] else values
    ensures (if b.name == heading then begun + ItemTexts(b.items) else begun) == values + BlockItems(b, heading)
  {}

  /** The first block's contribution, with its text abstracted. */
  lemma {:induction false} FirstBlock(s: Section, blocks: seq<Block>, heading: string)
    returns (found: seq<string>, next: Section)
    requires blocks != [] && WrittenBlock(blocks[0]) && heading in NAMES
    ensures next.values == s.values + found
    ensures ReadAll(s, Lines(blocks), heading) == ReadAll(next, Lines(blocks[1..]), heading)
    ensures Under(blocks, heading) == found + Under(blocks[1..], heading)
  {
    var active := ReadBlock(s, blocks[0], heading);
    found := BlockItems(blocks[0], heading);
    next := Section(active, s.values + found);
    ReadAllAppend(s, BlockLines(blocks[0]), Lines(blocks[1..]), heading);
  }

  lemma {:induction false} ReadBlocks(s: Section, blocks: seq<Block>, heading: string)
    requires heading in NAMES && forall i :: 0 <= i < |blocks| ==> WrittenBlock(blocks[i])
    ensures ReadAll(s, Lines(blocks), heading).values == s.values + Under(blocks, heading)
    decreases |blocks|
  {
    if blocks == [] {
      assert s.values + [] == s.values;
    } else {
      var found, next := FirstBlock(s, blocks, heading);
      ReadBlocks(next, blocks[1..], heading);
      Associates(s.values, found, Under(blocks[1..], heading));
    }
  }

  lemma {:induction false} Associates(values: seq<string>, found: seq<string>, rest: seq<string>)
    ensures values + found + rest == values + (found + rest)
  {}

  lemma {:induction false} UnderIsFull(blocks: seq<Block>, heading: string)
    requires forall i :: 0 <= i < |blocks| ==> WrittenBlock(blocks[i])
    ensures "" !in Under(blocks, heading)
  {
    if blocks != [] {
      UnderIsFull(blocks[1..], heading);
    }
  }

  /** However a document is written - headings in any case and any order, repeated or not, the
      first item on the heading's line or below it, items after any dashes and spaces or none -
      the section under a heading is the items under it, in order and unchanged. */
  lemma {:induction false} SectionsAsWritten(blocks: seq<Block>, heading: string)
    requires heading in NAMES && forall i :: 0 <= i < |blocks| ==> WrittenBlock(blocks[i])
    ensures SectionOf(Lines(blocks), heading) == Under(blocks, heading)
  {
    var lines, under := Lines(blocks), Under(blocks, heading);
    ReadBlocks(Section(false, []), blocks, heading);
    UnderIsFull(blocks, heading);
    AllKept(under);
    FullSection(lines, under, heading);
  }

  lemma {:induction false} FullSection(lines: seq<string>, under: seq<string>, heading: string)
    requires ReadAll(Section(false, []), lines, heading).values == [] + under && NonEmpty(under) == under
    ensures SectionOf(lines, heading) == under
  {
    assert [] + under == under;
  }

  lemma {:induction false} BlockIsLines(b: Block)
    requires WrittenBlock(b)
    ensures SingleLines(BlockLines(b))
  {
    NameLetters(b.name);
    SpelledSingle(b.spelling, b.name);
    forall i | 0 <= i < |b.items| ensures SingleLine(ItemLines(b.items)[i]) {
      assert Written(b.items[i]);
    }
  }

  lemma {:induction false} SpelledSingle(s: string, name: string)
    requires Spells(s, name) && SingleLine(name)
    ensures SingleLine(s)
  {}

  lemma {:induction false} LinesAreLines(blocks: seq<Block>)
    requires forall i :: 0 <= i < |blocks| ==> WrittenBlock(blocks[i])
    ensures SingleLines(Lines(blocks))
  {
    if blocks != [] {
      BlockIsLines(blocks[0]);
      LinesAreLines(blocks[1..]);
    }
  }

  /** So the parsed lists of any document written that way are what a reader finds in it. */
  lemma {:induction false} ListsAsWritten(blocks: seq<Block>)
    requires forall i :: 0 <= i < |blocks| ==> WrittenBlock(blocks[i])
    ensures var r := FromText(Join(Lines(blocks)));
            r.Parsed? ==>
              && r.evidence.changed == Under(blocks, CHANGED_PATHS)
              && r.evidence.checks == Under(blocks, CHECKS)
              && r.evidence.concerns == Under(blocks, CONCERNS)
  {
    LinesAreLines(blocks);
    SplitJoined(Lines(blocks));
    assert CHANGED_PATHS in NAMES && CHECKS in NAMES && CONCERNS in NAMES;
    SectionsAsWritten(blocks, CHANGED_PATHS);
    SectionsAsWritten(blocks, CHECKS);
    SectionsAsWritten(blocks, CONCERNS);
  }

  /** The status and its name may be written in any case. */
  lemma {:induction false} StatusInAnyCase(spelling: string, word: string, status: string, rest: string)
    requires Spells(spelling, STATUS) && status in STATUSES && Spells(word, status)
    ensures var r := FromText(spelling + ": " + word + "\n" + rest); r.Parsed? && r.evidence.status == status
  {
    StatusWord(word, status);
    SpelledToken(spelling, STATUS, word, rest);
    FoundStatus(spelling + ": " + word + "\n" + rest, word);
  }

  lemma {:induction false} FoundStatus(text: string, word: string)
    requires FindToken(text, STATUS) == Some(word) && CaseFold(word) in STATUSES
    ensures FromText(text).Parsed? && FromText(text).evidence.status == CaseFold(word)
  {}

  /** A one-word field is found under its name in any case. */
  lemma {:induction false} SpelledToken(spelling: string, name: string, word: string, rest: string)
    requires name in NAMES && Spells(spelling, name) && Token(word)
    ensures FindToken(spelling + ": " + word + "\n" + rest, name) == Some(word)
  {
    var s := spelling + ": " + word + "\n" + rest;
    var after := word + "\n" + rest;
    NamesAreAscii(name);
    SpelledFolds(spelling, name);
    assert s[|spelling|] == ':' && s[..|spelling|] == spelling && StartsWithName(s, name);
    assert s[|spelling| + 1..] == " " + after && (" " + after)[1..] == after;
    assert TrimLeft(" " + after) == TrimLeft(after) == after;
    FirstWordOf(word, rest);
  }

  /** So may the status of a payload, which may also have spaces around it. */
  lemma {:induction false} PayloadStatusInAnyCase(p: Payload, status: string)
    requires status in STATUSES && Spells(Strip(p.status), status)
    ensures FromPayload(p) != Rejected(NoStatus)
    ensures FromPayload(p).Parsed? ==> FromPayload(p).evidence.status == status
  {
    StatusWord(Strip(p.status), status);
  }

  lemma {:induction false} StatusWord(word: string, status: string)
    requires status in STATUSES && Spells(word, status)
    ensures CaseFold(word) == status && Token(word)
  {
    assert forall i :: 0 <= i < |status| ==> 'a' <= status[i] <= 'z';
    FoldedStatus(status);
    SpelledFolds(word, status);
  }

  // ------------------------------------------------------------- lines and candidates

  /** A line ends at any line break; a carriage return and the newline after it are one. */
  lemma {:induction false} LineEnds(line: string, ending: string, rest: string)
    requires SingleLine(line)
    requires ending == "\r\n" || (|ending| == 1 && LineBreak(ending[0]) && !(ending == "\r" && "\n" <= rest))
    ensures SplitLines(line + ending + rest) == [line] + SplitLines(rest)
  {
    var s, n := line + ending + rest, |line|;
    BreakFound(line, ending + rest);
    assert s == line + (ending + rest);
    assert s[..n] == line && s[n] == ending[0];
    if ending == "\r\n" {
      assert s[n + 1] == '\n' && s[n + 2..] == rest;
    } else {
      assert s[n + 1..] == rest;
      assert n + 1 < |s| ==> s[n + 1] == rest[0] && (rest[0] == '\n' ==> "\n" <= rest);
    }
  }

  lemma {:induction false} BreakFound(line: string, rest: string)
    requires SingleLine(line) && rest != "" && LineBreak(rest[0])
    ensures LineLength(line + rest) == |line|
  {
    var s := line + rest;
    if line != "" {
      assert s[1..] == line[1..] + rest;
      BreakFound(line[1..], rest);
    } else {
      assert s == rest;
    }
  }

  /** The last line that is evidence. */
  ghost predicate LastEvidence(load: Loader, lines: seq<string>, payload: Payload) {
    exists i :: 0 <= i < |lines| && load(lines[i]) == Found(payload)
                && forall j :: i < j < |lines| ==> load(lines[j]).NoEvidence?
  }

  ghost predicate NoLineIsEvidence(load: Loader, lines: seq<string>) {
    forall i :: 0 <= i < |lines| ==> load(lines[i]).NoEvidence?
  }

  lemma {:induction false} LastLine(load: Loader, lines: seq<string>, payload: Payload)
    requires lines != []
    ensures var front, last := lines[..|lines| - 1], load(Last(lines));
            && (LastEvidence(load, lines, payload) <==>
                  last == Found(payload) || (last.NoEvidence? && LastEvidence(load, front, payload)))
            && (NoLineIsEvidence(load, lines) <==> last.NoEvidence? && NoLineIsEvidence(load, front))
  {
    var n, front := |lines| - 1, lines[..|lines| - 1];
    if load(lines[n]) == Found(payload) {
      assert LastEvidence(load, lines, payload);
    }
    if load(lines[n]).NoEvidence? && LastEvidence(load, front, payload) {
      var i :| 0 <= i < n && load(front[i]) == Found(payload)
               && forall j :: i < j < n ==> load(front[j]).NoEvidence?;
      assert load(lines[i]) == Found(payload);
      forall j | i < j < |lines| ensures load(lines[j]).NoEvidence? {
        assert j < n ==> lines[j] == front[j];
      }
    }
    if LastEvidence(load, lines, payload) && load(lines[n]) != Found(payload) {
      var i :| 0 <= i < |lines| && load(lines[i]) == Found(payload)
               && forall j :: i < j < |lines| ==> load(lines[j]).NoEvidence?;
      assert load(front[i]) == Found(payload);
    }
    if NoLineIsEvidence(load, front) && load(lines[n]).NoEvidence? {
      forall i | 0 <= i < |lines| ensures load(lines[i]).NoEvidence? {
        assert i < n ==> lines[i] == front[i];
      }
    }
  }

  lemma {:induction false} CandidatesMean(load: Loader, lines: seq<string>, text: string, payload: Payload)
    ensures FirstFound(load, Reversed(lines) + [text]) == Some(payload) <==>
              LastEvidence(load, lines, payload) || (NoLineIsEvidence(load, lines) && load(text) == Found(payload))
    decreases |lines|
  {
    var candidates := Reversed(lines) + [text];
    if lines == [] {
      assert candidates == [text] && candidates[1..] == [];
    } else {
      var front := lines[..|lines| - 1];
      assert candidates == [Last(lines)] + (Reversed(front) + [text]);
      assert candidates[1..] == Reversed(front) + [text];
      CandidatesMean(load, front, text, payload);
      LastLine(load, lines, payload);
    }
  }

  /** Structured evidence is the last line that is evidence; the whole text counts only where
      no line does; and without either there is none. */
  lemma {:induction false} PayloadMeans(load: Loader, text: string, payload: Payload)
    ensures var lines := SplitLines(text);
            FindPayload(load, text) == Some(payload) <==>
              LastEvidence(load, lines, payload) || (NoLineIsEvidence(load, lines) && load(text) == Found(payload))
  {
    CandidatesMean(load, SplitLines(text), text, payload);
  }

  /** An array that is no list of texts with something in each. */
  predicate BadJson(list: JsonList) {
    list.NotAList? || exists i :: 0 <= i < |list.items| && (list.items[i] == None || Blank(list.items[i].value))
  }

  /** A payload is refused for the first bad array, or else for its status. */
  lemma {:induction false} PayloadRefusal(p: Payload)
    ensures FromPayload(p) == Rejected(BadList(ChangedPaths)) <==> BadJson(p.changed)
    ensures FromPayload(p) == Rejected(BadList(Checks)) <==> !BadJson(p.changed) && BadJson(p.checks)
    ensures FromPayload(p) == Rejected(BadList(RemainingConcerns)) <==>
              !BadJson(p.changed) && !BadJson(p.checks) && BadJson(p.concerns)
    ensures FromPayload(p) == Rejected(NoStatus) ==> CaseFold(Strip(p.status)) !in STATUSES
    ensures FromPayload(p) != Rejected(EmptyResult)
  {}

  /** The list holds these texts, trimmed. */
  predicate TrimsTo(list: JsonList, items: seq<string>) {
    list.JsonList? && |items| == |list.items|
    && forall i :: 0 <= i < |items| ==> list.items[i].Some? && items[i] == Strip(list.items[i].value) != ""
  }

  /** What a payload reads as: its lists trimmed, in order, an empty list of concerns as the
      one concern `None known`, and its provider trimmed. */
  lemma {:induction false} PayloadReads(p: Payload)
    ensures FromPayload(p).Parsed? ==> var e := FromPayload(p).evidence;
              && TrimsTo(p.changed, e.changed) && TrimsTo(p.checks, e.checks)
              && (if p.concerns == JsonList([]) then e.concerns == ["None known"] else TrimsTo(p.concerns, e.concerns))
              && e.provider == match p.provider case None => None case Some(name) => Some(Strip(name))
  {
    if FromPayload(p).Parsed? {
      ListTrims(p.changed);
      ListTrims(p.checks);
      ListTrims(p.concerns);
    }
  }

  lemma {:induction false} ListTrims(list: JsonList)
    ensures JsonValues(list).Some? ==> TrimsTo(list, JsonValues(list).value)
  {}
}
