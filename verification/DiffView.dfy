/**
 * The diff viewer (web/src/components/DiffViewer.tsx): parsing a unified diff (section "Diff -u or -U Output Format"
 * of the POSIX diff utility), laying it out side by side, and highlighting a line.
 */
module DiffView {
  import opened Common
  import opened Text

  datatype Kind = Context | Add | Del | HunkLine

  datatype PatchLine = PatchLine(kind: Kind, content: string, oldNum: Option<nat>, newNum: Option<nat>)

  // ---------------------------------------------------------------- hunk headers

  /** \d+ */
  function TakeNumber(s: string): Option<(nat, string)> {
    var n := DigitRun(s);
    if n == 0 then None
    else
      var v :- Value(s[..n], 10);
      Some((v, s[n..]))
  }

  function TakePrefix(s: string, prefix: string): Option<string> {
    if StartsWith(s, prefix) then Some(s[|prefix|..]) else None
  }

  /** (?:,\d+)? */
  function SkipCount(s: string): string {
    if s != "" && s[0] == ',' then
      (match TakeNumber(s[1..]) case None => s case Some((_, rest)) => rest)
    else s
  }

  /** The pattern of a hunk header, anchored: the two starting lines. */
  function HeaderAt(s: string): Option<(nat, nat)> {
    var s1 :- TakePrefix(s, "@@ -");
    var (oldStart, s2) :- TakeNumber(s1);
    var s3 :- TakePrefix(SkipCount(s2), " +");
    var (newStart, s4) :- TakeNumber(s3);
    var _ :- TakePrefix(SkipCount(s4), " @@");
    Some((oldStart, newStart))
  }

  /** raw.match(…): the first place the pattern matches. */
  function FindHeader(s: string, from: nat): Option<(nat, nat)>
    requires from <= |s|
    decreases |s| - from
  {
    match HeaderAt(s[from..])
    case Some(m) => Some(m)
    case None => if from == |s| then None else FindHeader(s, from + 1)
  }

  function Count(count: Option<nat>): string {
    if count.None? then "" else "," + Decimal(count.value)
  }

  lemma {:induction false} ValueOfDecimal(n: nat)
    ensures Value(Decimal(n), 10) == Some(n)
    decreases n
  {
    var high := if n < 10 then "" else Decimal(n / 10);
    assert Decimal(n) == high + [DigitChar(n % 10)];
    if n >= 10 { ValueOfDecimal(n / 10); }
    ValueSnoc(high, n % 10, 10, n / 10);
    DivMod(n, 10);
  }

  lemma NumberReads(n: nat, rest: string)
    requires rest == "" || !IsDigit(rest[0])
    ensures TakeNumber(Decimal(n) + rest) == Some((n, rest))
  {
    var d := Decimal(n);
    DecimalIsDigits(n);
    DigitRunOf(d, rest);
    ValueOfDecimal(n);
    assert (d + rest)[..|d|] == d && (d + rest)[|d|..] == rest;
  }

  lemma CountSkipped(count: Option<nat>, rest: string)
    requires rest != "" && rest[0] == ' '
    ensures SkipCount(Count(count) + rest) == rest
  {
    if count.None? {
      assert "" + rest == rest;
    } else {
      NumberReads(count.value, rest);
      CommaCount(Decimal(count.value), rest);
    }
  }

  lemma CommaCount(d: string, rest: string)
    ensures ("," + d + rest)[0] == ',' && ("," + d + rest)[1..] == d + rest
  {
  }

  lemma PrefixTaken(prefix: string, rest: string)
    ensures TakePrefix(prefix + rest, prefix) == Some(rest)
  {
    assert (prefix + rest)[|prefix|..] == rest;
  }

  lemma CountStartsWithoutDigit(count: Option<nat>, rest: string)
    requires rest != "" && !IsDigit(rest[0])
    ensures Count(count) + rest != "" && !IsDigit((Count(count) + rest)[0])
  {
  }

  function Header(oldStart: nat, oldCount: Option<nat>, newStart: nat, newCount: Option<nat>, section: string): string {
    var newSide := Decimal(newStart) + (Count(newCount) + (" @@" + section));
    "@@ -" + (Decimal(oldStart) + (Count(oldCount) + (" +" + newSide)))
  }

  /** A printed header reads back as its starting lines, with or without counts, whatever the section text. */
  lemma HeaderReads(oldStart: nat, oldCount: Option<nat>, newStart: nat, newCount: Option<nat>, section: string)
    ensures FindHeader(Header(oldStart, oldCount, newStart, newCount, section), 0) == Some((oldStart, newStart))
  {
    var end := " @@" + section;
    var s4 := Count(newCount) + end;
    var s3 := Decimal(newStart) + s4;
    var s2 := Count(oldCount) + (" +" + s3);
    var s1 := Decimal(oldStart) + s2;
    PrefixTaken("@@ -", s1);
    CountStartsWithoutDigit(oldCount, " +" + s3);
    NumberReads(oldStart, s2);
    CountSkipped(oldCount, " +" + s3);
    PrefixTaken(" +", s3);
    CountStartsWithoutDigit(newCount, end);
    NumberReads(newStart, s4);
    CountSkipped(newCount, end);
    PrefixTaken(" @@", section);
    var s := "@@ -" + s1;
    assert s[0..] == s;
  }

  // ---------------------------------------------------------------- parsing a patch

  /** The lines so far and the two line counters. */
  datatype Parser = Parser(lines: seq<PatchLine>, oldLine: nat, newLine: nat)

  const START := Parser([], 0, 0)

  predicate IsFileHeader(raw: string) {
    StartsWith(raw, "diff --git") || StartsWith(raw, "index ") || StartsWith(raw, "---") || StartsWith(raw, "+++")
  }

  function ContextLine(p: Parser, content: string): Parser {
    Parser(p.lines + [PatchLine(Context, content, Some(p.oldLine), Some(p.newLine))], p.oldLine + 1, p.newLine + 1)
  }

  /** What one line of the patch does. */
  function Read(p: Parser, raw: string): Parser {
    if StartsWith(raw, "@@") then
      var (oldLine, newLine) := match FindHeader(raw, 0) case Some(m) => m case None => (p.oldLine, p.newLine);
      Parser(p.lines + [PatchLine(HunkLine, raw, None, None)], oldLine, newLine)
    else if StartsWith(raw, "+") then
      p.(lines := p.lines + [PatchLine(Add, raw[1..], None, Some(p.newLine))], newLine := p.newLine + 1)
    else if StartsWith(raw, "-") then
      p.(lines := p.lines + [PatchLine(Del, raw[1..], Some(p.oldLine), None)], oldLine := p.oldLine + 1)
    else if StartsWith(raw, " ") then ContextLine(p, raw[1..])
    else if IsFileHeader(raw) || IsBlank(raw) then p
    else ContextLine(p, raw)
  }

  /** What the first character of a line decides. */
  lemma FirstDecides(raw: string)
    ensures StartsWith(raw, "+") <==> raw != "" && raw[0] == '+'
    ensures StartsWith(raw, "-") <==> raw != "" && raw[0] == '-'
    ensures StartsWith(raw, " ") <==> raw != "" && raw[0] == ' '
    ensures StartsWith(raw, "@@") ==> raw != "" && raw[0] == '@'
    ensures IsFileHeader(raw) ==> raw != "" && raw[0] in "di-+"
    ensures StartsWith(raw, "diff --git") || StartsWith(raw, "index ") ==> raw[0] in "di"
    ensures StartsWith(raw, "---") ==> raw[0] == '-'
    ensures StartsWith(raw, "+++") ==> raw[0] == '+'
  {
    StartsWithOne(raw, '+');
    StartsWithOne(raw, '-');
    StartsWithOne(raw, ' ');
    if StartsWith(raw, "@@") { StartsWithFirst(raw, "@@"); }
    if StartsWith(raw, "diff --git") { StartsWithFirst(raw, "diff --git"); }
    if StartsWith(raw, "index ") { StartsWithFirst(raw, "index "); }
    if StartsWith(raw, "---") { StartsWithFirst(raw, "---"); }
    if StartsWith(raw, "+++") { StartsWithFirst(raw, "+++"); }
  }

  function ReadAll(p: Parser, raws: seq<string>): Parser
    decreases |raws|
  {
    if raws == [] then p else ReadAll(Read(p, raws[0]), raws[1..])
  }

  lemma ReadOn(p: Parser, raws: seq<string>, k: nat)
    requires k < |raws|
    ensures ReadAll(p, raws[k..]) == ReadAll(Read(p, raws[k]), raws[k + 1..])
  {
    assert raws[k..][1..] == raws[k + 1..];
  }

  method ParsePatch(patch: string) returns (lines: seq<PatchLine>)
    ensures lines == ReadAll(START, Split(patch, "\n")).lines
  {
    lines := [];
    var oldLine, newLine := 0, 0;
    var raws := Split(patch, "\n");
    var k := 0;
    while k < |raws|
      invariant 0 <= k <= |raws|
      invariant ReadAll(Parser(lines, oldLine, newLine), raws[k..]) == ReadAll(START, raws)
    {
      ReadOn(Parser(lines, oldLine, newLine), raws, k);
      lines, oldLine, newLine := ParseLine(lines, oldLine, newLine, raws[k]);
      k := k + 1;
    }
  }

  /** The body of parsePatch's loop. */
  method ParseLine(before: seq<PatchLine>, oldBefore: nat, newBefore: nat, raw: string)
    returns (lines: seq<PatchLine>, oldLine: nat, newLine: nat)
    ensures Parser(lines, oldLine, newLine) == Read(Parser(before, oldBefore, newBefore), raw)
  {
    lines, oldLine, newLine := before, oldBefore, newBefore;
    if StartsWith(raw, "@@") {
      var m := FindHeader(raw, 0);
      if m.Some? { oldLine, newLine := m.value.0, m.value.1; }
      lines := lines + [PatchLine(HunkLine, raw, None, None)];
    } else if StartsWith(raw, "+") {
      lines := lines + [PatchLine(Add, raw[1..], None, Some(newLine))];
      newLine := newLine + 1;
    } else if StartsWith(raw, "-") {
      lines := lines + [PatchLine(Del, raw[1..], Some(oldLine), None)];
      oldLine := oldLine + 1;
    } else if StartsWith(raw, " ") {
      lines := lines + [PatchLine(Context, raw[1..], Some(oldLine), Some(newLine))];
      oldLine, newLine := oldLine + 1, newLine + 1;
    } else if IsFileHeader(raw) {
    } else if !IsBlank(raw) {
      lines := lines + [PatchLine(Context, raw, Some(oldLine), Some(newLine))];
      oldLine, newLine := oldLine + 1, newLine + 1;
    }
  }

  // ---------------------------------------------------------------- what a patch says

  /** `NoNewline` marks git's remark on the line above it: "\ No newline at end of file". */
  datatype Mark = Both | OldOnly | NewOnly | NoNewline

  datatype BodyLine = BodyLine(mark: Mark, text: string)

  datatype Hunk = Hunk(oldStart: nat, oldCount: Option<nat>, newStart: nat, newCount: Option<nat>, section: string,
                       body: seq<BodyLine>)

  function Raw(b: BodyLine): string {
    (match b.mark case Both => " " case OldOnly => "-" case NewOnly => "+" case NoNewline => "\\") + b.text
  }

  /** What the viewer shows of a line: it does not know the remark, and takes it for a line of both files. */
  function Content(b: BodyLine): string {
    if b.mark == NoNewline then Raw(b) else b.text
  }

  predicate ShownOn(mark: Mark, side: Mark) { mark == Both || mark == side || mark == NoNewline }

  function HeaderOf(h: Hunk): string { Header(h.oldStart, h.oldCount, h.newStart, h.newCount, h.section) }

  function RawBody(body: seq<BodyLine>): seq<string> {
    if body == [] then [] else [Raw(body[0])] + RawBody(body[1..])
  }

  function RawPatch(hunks: seq<Hunk>): seq<string> {
    if hunks == [] then [] else [HeaderOf(hunks[0])] + RawBody(hunks[0].body) + RawPatch(hunks[1..])
  }

  /** The texts shown on one side, in order. */
  function Texts(body: seq<BodyLine>, side: Mark): seq<string> {
    if body == [] then []
    else (if ShownOn(body[0].mark, side) then [Content(body[0])] else []) + Texts(body[1..], side)
  }

  /** A numbered line as displayed. */
  type Numbered = (Option<nat>, string)

  function Number(start: nat, texts: seq<string>): seq<Numbered> {
    seq(|texts|, k requires 0 <= k < |texts| => (Some(start + k), texts[k]))
  }

  const OLD_SIDE: PatchLine -> seq<Numbered> :=
    (line: PatchLine) => if line.kind == Context || line.kind == Del then [(line.oldNum, line.content)] else []

  const NEW_SIDE: PatchLine -> seq<Numbered> :=
    (line: PatchLine) => if line.kind == Context || line.kind == Add then [(line.newNum, line.content)] else []

  /** Kind and content of each line, in order: the patch itself, numbers aside. */
  const SHOWN: PatchLine -> seq<(Kind, string)> :=
    (line: PatchLine) => [(line.kind, line.content)]

  function KindOf(mark: Mark): Kind {
    match mark case Both => Context case NoNewline => Context case OldOnly => Del case NewOnly => Add
  }

  function ShownBody(body: seq<BodyLine>): seq<(Kind, string)> {
    if body == [] then [] else [(KindOf(body[0].mark), Content(body[0]))] + ShownBody(body[1..])
  }

  /** The k-th line shown on the old side of each hunk numbered with the hunk's old start plus k. */
  function OldLines(hunks: seq<Hunk>): seq<Numbered> {
    if hunks == [] then [] else Number(hunks[0].oldStart, Texts(hunks[0].body, OldOnly)) + OldLines(hunks[1..])
  }

  function NewLines(hunks: seq<Hunk>): seq<Numbered> {
    if hunks == [] then [] else Number(hunks[0].newStart, Texts(hunks[0].body, NewOnly)) + NewLines(hunks[1..])
  }

  function ShownPatch(hunks: seq<Hunk>): seq<(Kind, string)> {
    if hunks == [] then []
    else [(HunkLine, HeaderOf(hunks[0]))] + ShownBody(hunks[0].body) + ShownPatch(hunks[1..])
  }

  lemma {:induction false} ReadAllAppend(p: Parser, a: seq<string>, b: seq<string>)
    ensures ReadAll(p, a + b) == ReadAll(ReadAll(p, a), b)
    decreases |a|
  {
    if a == [] {
      assert a + b == b;
    } else {
      assert (a + b)[1..] == a[1..] + b;
      ReadAllAppend(Read(p, a[0]), a[1..], b);
    }
  }

  /** A body line adds one line and advances the counters of the sides it is on. */
  function LineOf(b: BodyLine, oldLine: nat, newLine: nat): PatchLine {
    match b.mark
    case Both => PatchLine(Context, b.text, Some(oldLine), Some(newLine))
    case NoNewline => PatchLine(Context, Raw(b), Some(oldLine), Some(newLine))
    case OldOnly => PatchLine(Del, b.text, Some(oldLine), None)
    case NewOnly => PatchLine(Add, b.text, None, Some(newLine))
  }

  lemma BodyLineReads(p: Parser, b: BodyLine)
    ensures Read(p, Raw(b)) == Parser(p.lines + [LineOf(b, p.oldLine, p.newLine)],
                                      p.oldLine + (if b.mark == NewOnly then 0 else 1),
                                      p.newLine + (if b.mark == OldOnly then 0 else 1))
  {
    RawParts(b);
    FirstDecides(Raw(b));
    if b.mark == NoNewline { assert !IsSpace(Raw(b)[0]); }
  }

  lemma RawParts(b: BodyLine)
    ensures Raw(b) != "" && Raw(b)[1..] == b.text
    ensures Raw(b)[0] == match b.mark case Both => ' ' case OldOnly => '-' case NewOnly => '+' case NoNewline => '\\'
  {
  }

  /** What reading `raws` adds to a parser. */
  ghost predicate Adds(p: Parser, q: Parser, olds: seq<Numbered>, news: seq<Numbered>, shown: seq<(Kind, string)>) {
    && |q.lines| >= |p.lines| && q.lines[..|p.lines|] == p.lines
    && FlatMap(OLD_SIDE, q.lines) == FlatMap(OLD_SIDE, p.lines) + olds
    && FlatMap(NEW_SIDE, q.lines) == FlatMap(NEW_SIDE, p.lines) + news
    && FlatMap(SHOWN, q.lines) == FlatMap(SHOWN, p.lines) + shown
  }

  lemma AddsTrans(p: Parser, q: Parser, r: Parser, o1: seq<Numbered>, n1: seq<Numbered>, s1: seq<(Kind, string)>,
                  o2: seq<Numbered>, n2: seq<Numbered>, s2: seq<(Kind, string)>)
    requires Adds(p, q, o1, n1, s1) && Adds(q, r, o2, n2, s2)
    ensures Adds(p, r, o1 + o2, n1 + n2, s1 + s2)
  {
    assert r.lines[..|p.lines|] == r.lines[..|q.lines|][..|p.lines|];
    Assoc(FlatMap(OLD_SIDE, p.lines), o1, o2);
    Assoc(FlatMap(NEW_SIDE, p.lines), n1, n2);
    Assoc(FlatMap(SHOWN, p.lines), s1, s2);
  }

  lemma Assoc<T>(a: seq<T>, b: seq<T>, c: seq<T>)
    ensures (a + b) + c == a + (b + c)
  {
  }

  lemma OneLineAdds(p: Parser, q: Parser, line: PatchLine)
    requires q.lines == p.lines + [line]
    ensures Adds(p, q, OLD_SIDE(line), NEW_SIDE(line), SHOWN(line))
  {
    FlatMapAppend(OLD_SIDE, p.lines, [line]);
    FlatMapAppend(NEW_SIDE, p.lines, [line]);
    FlatMapAppend(SHOWN, p.lines, [line]);
    FlatMapOne(OLD_SIDE, line);
    FlatMapOne(NEW_SIDE, line);
    FlatMapOne(SHOWN, line);
  }

  lemma NumberCons(start: nat, text: string, texts: seq<string>)
    ensures Number(start, [text] + texts) == [(Some(start), text)] + Number(start + 1, texts)
  {
  }

  /** What one body line contributes to a side, followed by the rest. */
  lemma {:induction false} SideCons(body: seq<BodyLine>, side: Mark, start: nat)
    requires body != []
    ensures var on := ShownOn(body[0].mark, side);
            Number(start, Texts(body, side))
            == (if on then [(Some(start), Content(body[0]))] else [])
               + Number(if on then start + 1 else start, Texts(body[1..], side))
  {
    if ShownOn(body[0].mark, side) { NumberCons(start, Content(body[0]), Texts(body[1..], side)); }
  }

  lemma LineSides(b: BodyLine, oldLine: nat, newLine: nat)
    ensures var line := LineOf(b, oldLine, newLine);
            && OLD_SIDE(line) == (if ShownOn(b.mark, OldOnly) then [(Some(oldLine), Content(b))] else [])
            && NEW_SIDE(line) == (if ShownOn(b.mark, NewOnly) then [(Some(newLine), Content(b))] else [])
            && SHOWN(line) == [(KindOf(b.mark), Content(b))]
  {
  }

  lemma {:induction false} BodyAdds(p: Parser, body: seq<BodyLine>)
    ensures Adds(p, ReadAll(p, RawBody(body)), Number(p.oldLine, Texts(body, OldOnly)),
                 Number(p.newLine, Texts(body, NewOnly)), ShownBody(body))
    decreases |body|
  {
    if body == [] {
      assert p.lines[..|p.lines|] == p.lines;
    } else {
      var b := body[0];
      var line, q := LineOf(b, p.oldLine, p.newLine), Read(p, Raw(b));
      BodyLineReads(p, b);
      OneLineAdds(p, q, line);
      BodyAdds(q, body[1..]);
      ReadBodyCons(p, body);
      BodyStep(p, q, ReadAll(q, RawBody(body[1..])), line, body);
    }
  }

  lemma {:induction false} BodyStep(p: Parser, q: Parser, r: Parser, line: PatchLine, body: seq<BodyLine>)
    requires body != [] && line == LineOf(body[0], p.oldLine, p.newLine)
    requires Adds(p, q, OLD_SIDE(line), NEW_SIDE(line), SHOWN(line))
    requires q.oldLine == p.oldLine + (if body[0].mark == NewOnly then 0 else 1)
    requires q.newLine == p.newLine + (if body[0].mark == OldOnly then 0 else 1)
    requires Adds(q, r, Number(q.oldLine, Texts(body[1..], OldOnly)), Number(q.newLine, Texts(body[1..], NewOnly)),
                  ShownBody(body[1..]))
    ensures Adds(p, r, Number(p.oldLine, Texts(body, OldOnly)), Number(p.newLine, Texts(body, NewOnly)),
                 ShownBody(body))
  {
    AddsTrans(p, q, r, OLD_SIDE(line), NEW_SIDE(line), SHOWN(line),
              Number(q.oldLine, Texts(body[1..], OldOnly)), Number(q.newLine, Texts(body[1..], NewOnly)),
              ShownBody(body[1..]));
    SidesStep(p.oldLine, p.newLine, line, body);
  }

  lemma {:induction false} SidesStep(oldLine: nat, newLine: nat, line: PatchLine, body: seq<BodyLine>)
    requires body != [] && line == LineOf(body[0], oldLine, newLine)
    ensures Number(oldLine, Texts(body, OldOnly))
            == OLD_SIDE(line) + Number(oldLine + (if body[0].mark == NewOnly then 0 else 1), Texts(body[1..], OldOnly))
    ensures Number(newLine, Texts(body, NewOnly))
            == NEW_SIDE(line) + Number(newLine + (if body[0].mark == OldOnly then 0 else 1), Texts(body[1..], NewOnly))
    ensures ShownBody(body) == SHOWN(line) + ShownBody(body[1..])
  {
    LineSides(body[0], oldLine, newLine);
    SideCons(body, OldOnly, oldLine);
    SideCons(body, NewOnly, newLine);
  }

  lemma ReadBodyCons(p: Parser, body: seq<BodyLine>)
    requires body != []
    ensures ReadAll(p, RawBody(body)) == ReadAll(Read(p, Raw(body[0])), RawBody(body[1..]))
  {
    assert RawBody(body)[1..] == RawBody(body[1..]);
  }

  lemma HeaderAdds(p: Parser, h: Hunk)
    ensures var q := Read(p, HeaderOf(h));
            && q.oldLine == h.oldStart && q.newLine == h.newStart
            && Adds(p, q, [], [], [(HunkLine, HeaderOf(h))])
  {
    var raw := HeaderOf(h);
    HeaderReads(h.oldStart, h.oldCount, h.newStart, h.newCount, h.section);
    OneLineAdds(p, Read(p, raw), PatchLine(HunkLine, raw, None, None));
  }

  lemma {:induction false} PatchAdds(p: Parser, hunks: seq<Hunk>)
    ensures Adds(p, ReadAll(p, RawPatch(hunks)), OldLines(hunks), NewLines(hunks), ShownPatch(hunks))
    decreases |hunks|
  {
    if hunks == [] {
      assert p.lines[..|p.lines|] == p.lines;
    } else {
      var h := hunks[0];
      var q := Read(p, HeaderOf(h));
      var r := ReadAll(q, RawBody(h.body));
      HeaderAdds(p, h);
      BodyAdds(q, h.body);
      var olds, news := Number(h.oldStart, Texts(h.body, OldOnly)), Number(h.newStart, Texts(h.body, NewOnly));
      AddsTrans(p, q, r, [], [], [(HunkLine, HeaderOf(h))], olds, news, ShownBody(h.body));
      PatchAdds(r, hunks[1..]);
      AddsTrans(p, r, ReadAll(r, RawPatch(hunks[1..])), [] + olds, [] + news,
                [(HunkLine, HeaderOf(h))] + ShownBody(h.body), OldLines(hunks[1..]), NewLines(hunks[1..]),
                ShownPatch(hunks[1..]));
      ReadHunkCons(p, hunks);
      assert [] + olds == olds && [] + news == news;
    }
  }

  lemma ReadHunkCons(p: Parser, hunks: seq<Hunk>)
    requires hunks != []
    ensures ReadAll(p, RawPatch(hunks))
            == ReadAll(ReadAll(Read(p, HeaderOf(hunks[0])), RawBody(hunks[0].body)), RawPatch(hunks[1..]))
  {
    var head, tail := [HeaderOf(hunks[0])] + RawBody(hunks[0].body), RawPatch(hunks[1..]);
    ReadAllAppend(p, head, tail);
    assert head[1..] == RawBody(hunks[0].body);
  }

  ghost predicate IsHunk(h: Hunk) {
    IsLine(h.section) && forall i :: 0 <= i < |h.body| ==> IsLine(h.body[i].text)
  }

  /** The lines that show these hunks, numbered on each side from each hunk's start. */
  ghost predicate IsNumbered(lines: seq<PatchLine>, hunks: seq<Hunk>) {
    && FlatMap(OLD_SIDE, lines) == OldLines(hunks)
    && FlatMap(NEW_SIDE, lines) == NewLines(hunks)
    && FlatMap(SHOWN, lines) == ShownPatch(hunks)
  }

  /** After the lines `above`, the next `n` show these hunks. */
  ghost predicate ShowsNext(above: seq<PatchLine>, lines: seq<PatchLine>, n: nat, hunks: seq<Hunk>) {
    && |above| + n <= |lines| && lines[..|above|] == above
    && IsNumbered(lines[|above|..|above| + n], hunks)
  }

  lemma AddedLines(p: Parser, q: Parser, hunks: seq<Hunk>)
    requires Adds(p, q, OldLines(hunks), NewLines(hunks), ShownPatch(hunks))
    ensures IsNumbered(q.lines[|p.lines|..], hunks)
  {
    var added := q.lines[|p.lines|..];
    assert q.lines == p.lines + added;
    FlatMapAppend(OLD_SIDE, p.lines, added);
    FlatMapAppend(NEW_SIDE, p.lines, added);
    FlatMapAppend(SHOWN, p.lines, added);
    SameRest(FlatMap(OLD_SIDE, p.lines), FlatMap(OLD_SIDE, added), OldLines(hunks));
    SameRest(FlatMap(NEW_SIDE, p.lines), FlatMap(NEW_SIDE, added), NewLines(hunks));
    SameRest(FlatMap(SHOWN, p.lines), FlatMap(SHOWN, added), ShownPatch(hunks));
  }

  lemma SameRest<T>(a: seq<T>, b: seq<T>, c: seq<T>)
    requires a + b == a + c
    ensures b == c
  {
    assert b == (a + b)[|a|..] && c == (a + c)[|a|..];
  }

  /** Reading on never touches the lines already there. */
  lemma {:induction false} ReadAllKeeps(p: Parser, raws: seq<string>)
    ensures |ReadAll(p, raws).lines| >= |p.lines| && ReadAll(p, raws).lines[..|p.lines|] == p.lines
    decreases |raws|
  {
    if raws == [] {
      assert p.lines[..|p.lines|] == p.lines;
    } else {
      var q := Read(p, raws[0]);
      ReadKeeps(p, raws[0]);
      ReadAllKeeps(q, raws[1..]);
      assert ReadAll(q, raws[1..]).lines[..|p.lines|] == ReadAll(q, raws[1..]).lines[..|q.lines|][..|p.lines|];
    }
  }

  lemma ReadKeeps(p: Parser, raw: string)
    ensures |Read(p, raw).lines| >= |p.lines| && Read(p, raw).lines[..|p.lines|] == p.lines
  {
    var q := Read(p, raw);
    assert q.lines == p.lines || q.lines == p.lines + [q.lines[|q.lines| - 1]];
  }

  /** The lines of a patch: what stands before its hunks, the hunks, and what follows them. */
  function PatchLines(heads: seq<string>, hunks: seq<Hunk>, more: seq<string>): seq<string> {
    heads + (RawPatch(hunks) + more)
  }

  ghost predicate AllLines(raws: seq<string>) {
    forall i :: 0 <= i < |raws| ==> IsLine(raws[i])
  }

  lemma LinesTogether(a: seq<string>, b: seq<string>)
    requires AllLines(a) && AllLines(b)
    ensures AllLines(a + b)
  {
  }

  lemma PatchSplits(heads: seq<string>, hunks: seq<Hunk>, more: seq<string>)
    requires AllLines(heads) && AllLines(more) && PatchLines(heads, hunks, more) != []
    requires forall i :: 0 <= i < |hunks| ==> IsHunk(hunks[i])
    ensures Split(JoinLines(PatchLines(heads, hunks, more)), "\n") == PatchLines(heads, hunks, more)
  {
    RawIsLines(hunks);
    LinesTogether(RawPatch(hunks), more);
    LinesTogether(heads, RawPatch(hunks) + more);
    SplitJoined(PatchLines(heads, hunks, more));
  }

  /**
   * A whole patch: whatever lines stand before its hunks (git's file header, or other files' diffs) and after them (the
   * end of the text, or further diffs), the hunks are shown line by line in order, and on each side the k-th line shown
   * of a hunk carries the hunk's start on that side plus k.
   */
  lemma {:induction false} PatchIsNumbered(heads: seq<string>, hunks: seq<Hunk>, more: seq<string>)
    requires AllLines(heads) && AllLines(more) && PatchLines(heads, hunks, more) != []
    requires forall i :: 0 <= i < |hunks| ==> IsHunk(hunks[i])
    ensures var lines := ReadAll(START, Split(JoinLines(PatchLines(heads, hunks, more)), "\n")).lines;
            ShowsNext(ReadAll(START, heads).lines, lines, |RawPatch(hunks)|, hunks)
  {
    PatchSplits(heads, hunks, more);
    ReadAllAppend(START, heads, RawPatch(hunks) + more);
    HunksAreNumbered(ReadAll(START, heads), hunks, more);
  }

  lemma {:induction false} HunksAreNumbered(p: Parser, hunks: seq<Hunk>, more: seq<string>)
    ensures ShowsNext(p.lines, ReadAll(p, RawPatch(hunks) + more).lines, |RawPatch(hunks)|, hunks)
  {
    var q := ReadAll(p, RawPatch(hunks));
    ReadAllAppend(p, RawPatch(hunks), more);
    PatchAdds(p, hunks);
    AddedLines(p, q, hunks);
    AsManyShown(p, q, hunks);
    ReadAllKeeps(q, more);
    Inside(p.lines, q.lines, ReadAll(q, more).lines, hunks);
  }

  lemma Inside(a: seq<PatchLine>, b: seq<PatchLine>, c: seq<PatchLine>, hunks: seq<Hunk>)
    requires |a| <= |b| <= |c| && b[..|a|] == a && c[..|b|] == b && IsNumbered(b[|a|..], hunks)
    ensures ShowsNext(a, c, |b| - |a|, hunks)
  {
    assert c[..|a|] == c[..|b|][..|a|];
    assert c[|a|..|b|] == b[|a|..];
  }

  /** Every line of a hunk is shown once. */
  lemma AsManyShown(p: Parser, q: Parser, hunks: seq<Hunk>)
    requires Adds(p, q, OldLines(hunks), NewLines(hunks), ShownPatch(hunks))
    ensures |q.lines| == |p.lines| + |RawPatch(hunks)|
  {
    ShownLength(p.lines);
    ShownLength(q.lines);
    ShownPatchLength(hunks);
  }

  lemma {:induction false} ShownLength(lines: seq<PatchLine>)
    ensures |FlatMap(SHOWN, lines)| == |lines|
  {
    if lines != [] { ShownLength(lines[1..]); }
  }

  lemma {:induction false} ShownPatchLength(hunks: seq<Hunk>)
    ensures |ShownPatch(hunks)| == |RawPatch(hunks)|
  {
    if hunks != [] {
      ShownBodyLength(hunks[0].body);
      ShownPatchLength(hunks[1..]);
    }
  }

  lemma {:induction false} ShownBodyLength(body: seq<BodyLine>)
    ensures |ShownBody(body)| == |RawBody(body)| == |body|
  {
    if body != [] { ShownBodyLength(body[1..]); }
  }

  // ---------------------------------------------------------------- where the numbers are wrong

  /** The side's own lines. */
  function OwnTexts(body: seq<BodyLine>, side: Mark): seq<string> {
    if body == [] then []
    else (if body[0].mark == Both || body[0].mark == side then [body[0].text] else []) + OwnTexts(body[1..], side)
  }

  function Remarks(body: seq<BodyLine>): nat {
    if body == [] then 0 else (if body[0].mark == NoNewline then 1 else 0) + Remarks(body[1..])
  }

  lemma {:induction false} NoRemarksIff(body: seq<BodyLine>)
    ensures Remarks(body) == 0 <==> forall i :: 0 <= i < |body| ==> body[i].mark != NoNewline
  {
    if body != [] {
      NoRemarksIff(body[1..]);
      assert forall i :: 0 < i < |body| ==> body[i] == body[1..][i - 1];
    }
  }

  lemma {:induction false} ShownAndOwn(body: seq<BodyLine>, side: Mark)
    requires side == OldOnly || side == NewOnly
    ensures |Texts(body, side)| == |OwnTexts(body, side)| + Remarks(body)
  {
    if body != [] { ShownAndOwn(body[1..], side); }
  }

  lemma {:induction false} TextsAppend(a: seq<BodyLine>, b: seq<BodyLine>, side: Mark)
    ensures Texts(a + b, side) == Texts(a, side) + Texts(b, side)
  {
    if a == [] {
      assert a + b == b;
    } else {
      assert (a + b)[1..] == a[1..] + b;
      TextsAppend(a[1..], b, side);
    }
  }

  /**
   * The viewer counts "\ No newline at end of file" as a line of both files. So line `i` of a hunk is shown on a side
   * it is on with its own number plus the number of such remarks above it in the hunk: with its own number if and only
   * if there is none.
   */
  lemma ShiftedByRemarks(body: seq<BodyLine>, side: Mark, start: nat, i: nat)
    requires i < |body| && (side == OldOnly || side == NewOnly) && (body[i].mark == Both || body[i].mark == side)
    ensures var own, k := start + |OwnTexts(body[..i], side)|, |Texts(body[..i], side)|;
            && k < |Texts(body, side)|
            && Number(start, Texts(body, side))[k] == (Some(own + Remarks(body[..i])), body[i].text)
            && (Number(start, Texts(body, side))[k].0 == Some(own) <==>
                forall j :: 0 <= j < i ==> body[j].mark != NoNewline)
  {
    ShownAndOwn(body[..i], side);
    NoRemarksIff(body[..i]);
    assert body == body[..i] + body[i..];
    TextsAppend(body[..i], body[i..], side);
  }

  lemma DecimalIsLine(n: nat)
    ensures IsLine(Decimal(n))
  {
    DecimalIsDigits(n);
  }

  lemma HeaderIsLine(h: Hunk)
    requires IsLine(h.section)
    ensures IsLine(HeaderOf(h))
  {
    DecimalIsLine(h.oldStart);
    DecimalIsLine(h.newStart);
    if h.oldCount.Some? { DecimalIsLine(h.oldCount.value); }
    if h.newCount.Some? { DecimalIsLine(h.newCount.value); }
    assert IsLine(Count(h.oldCount)) && IsLine(Count(h.newCount));
  }

  lemma {:induction false} BodyIsLines(body: seq<BodyLine>)
    requires forall i :: 0 <= i < |body| ==> IsLine(body[i].text)
    ensures forall i :: 0 <= i < |RawBody(body)| ==> IsLine(RawBody(body)[i])
  {
    if body != [] { BodyIsLines(body[1..]); }
  }

  lemma {:induction false} RawIsLines(hunks: seq<Hunk>)
    requires forall i :: 0 <= i < |hunks| ==> IsHunk(hunks[i])
    ensures forall i :: 0 <= i < |RawPatch(hunks)| ==> IsLine(RawPatch(hunks)[i])
  {
    if hunks != [] {
      assert IsHunk(hunks[0]);
      HeaderIsLine(hunks[0]);
      BodyIsLines(hunks[0].body);
      RawIsLines(hunks[1..]);
    }
  }

  /** Exactly these lines are not shown. */
  lemma LineIsSkippedIff(p: Parser, raw: string)
    ensures Read(p, raw) == p <==>
              || StartsWith(raw, "diff --git") || StartsWith(raw, "index ")
              || (IsBlank(raw) && !StartsWith(raw, " "))
  {
    FirstDecides(raw);
    if IsBlank(raw) && raw != "" { assert IsSpace(raw[0]); }
  }

  /**
   * So of the four kinds of file header line that parsePatch means to skip it skips two. The others, which name the two
   * files, it shows: their first character marks them as changed lines.
   */
  lemma FileHeadersAreShown(p: Parser, raw: string)
    requires IsFileHeader(raw)
    ensures Read(p, raw) == p <==> StartsWith(raw, "diff --git") || StartsWith(raw, "index ")
    ensures StartsWith(raw, "---") ==> Read(p, raw).lines == p.lines + [PatchLine(Del, raw[1..], Some(p.oldLine), None)]
    ensures StartsWith(raw, "+++") ==> Read(p, raw).lines == p.lines + [PatchLine(Add, raw[1..], None, Some(p.newLine))]
  {
    FirstDecides(raw);
    LineIsSkippedIff(p, raw);
    assert !IsSpace(raw[0]);
  }

  /** What git's header of a changed file shows above its hunks: a deleted line 0 and an added line 0. */
  lemma GitHeadShows(names: string, ids: string, from: string, to: string)
    ensures ReadAll(START, ["diff --git " + names] + (["index " + ids] + (["--- " + from] + (["+++ " + to] + []))))
            == Parser([PatchLine(Del, "-- " + from, Some(0), None), PatchLine(Add, "++ " + to, None, Some(0))], 1, 1)
  {
    var lines := [] + [PatchLine(Del, "-- " + from, Some(0), None)];
    Begins("diff --git", " " + names, "diff --git " + names);
    Begins("index ", ids, "index " + ids);
    Begins("---", " " + from, "--- " + from);
    Begins("+++", " " + to, "+++ " + to);
    FileHeadersAreShown(START, "diff --git " + names);
    FileHeadersAreShown(START, "index " + ids);
    ChangedLineReads(START, "--- " + from);
    ChangedLineReads(Parser(lines, 1, 0), "+++ " + to);
    ReadCons(START, "diff --git " + names, ["index " + ids] + (["--- " + from] + (["+++ " + to] + [])));
    ReadCons(START, "index " + ids, ["--- " + from] + (["+++ " + to] + []));
    ReadCons(START, "--- " + from, ["+++ " + to] + []);
    ReadCons(Parser(lines, 1, 0), "+++ " + to, []);
    assert ("--- " + from)[1..] == "-- " + from && ("+++ " + to)[1..] == "++ " + to;
  }

  lemma Begins(prefix: string, rest: string, s: string)
    requires s == prefix + rest
    ensures StartsWith(s, prefix)
  {
  }

  lemma ChangedLineReads(p: Parser, raw: string)
    requires raw != "" && (raw[0] == '-' || raw[0] == '+')
    ensures var del := PatchLine(Del, raw[1..], Some(p.oldLine), None);
            raw[0] == '-' ==> Read(p, raw) == Parser(p.lines + [del], p.oldLine + 1, p.newLine)
    ensures var add := PatchLine(Add, raw[1..], None, Some(p.newLine));
            raw[0] == '+' ==> Read(p, raw) == Parser(p.lines + [add], p.oldLine, p.newLine + 1)
  {
    FirstDecides(raw);
  }

  lemma ReadCons(p: Parser, raw: string, raws: seq<string>)
    ensures ReadAll(p, [raw] + raws) == ReadAll(Read(p, raw), raws)
  {
    assert ([raw] + raws)[1..] == raws;
  }

  // ---------------------------------------------------------------- side by side

  datatype Pair = Pair(left: Option<PatchLine>, right: Option<PatchLine>, isHunk: bool)

  const LEFT: Pair -> seq<PatchLine> := (p: Pair) => if p.left.Some? then [p.left.value] else []
  const RIGHT: Pair -> seq<PatchLine> := (p: Pair) => if p.right.Some? then [p.right.value] else []

  /** The lines that belong on the left, and on the right. */
  const ON_LEFT: PatchLine -> seq<PatchLine> := (line: PatchLine) => if line.kind == Add then [] else [line]
  const ON_RIGHT: PatchLine -> seq<PatchLine> := (line: PatchLine) => if line.kind == Del then [] else [line]

  /** A row shows one line on both sides, or a deletion beside an addition, either of which may be missing. */
  predicate IsRow(p: Pair) {
    || (p.left.Some? && p.left == p.right && p.left.value.kind in {HunkLine, Context}
        && p.isHunk == (p.left.value.kind == HunkLine))
    || (!p.isHunk && (p.left.Some? || p.right.Some?)
        && (p.left.Some? ==> p.left.value.kind == Del) && (p.right.Some? ==> p.right.value.kind == Add))
  }

  ghost predicate AllKind(lines: seq<PatchLine>, kind: Kind) {
    forall i :: 0 <= i < |lines| ==> lines[i].kind == kind
  }

  ghost predicate AllRows(pairs: seq<Pair>) {
    forall i :: 0 <= i < |pairs| ==> IsRow(pairs[i])
  }

  lemma NextOn(f: PatchLine -> seq<PatchLine>, lines: seq<PatchLine>, i: nat)
    requires i < |lines|
    ensures FlatMap(f, lines[i..]) == f(lines[i]) + FlatMap(f, lines[i + 1..])
  {
    assert lines[i..] == [lines[i]] + lines[i + 1..];
    FlatMapCons(f, lines[i], lines[i + 1..]);
  }

  /** Consecutive lines of one kind, from `i` on. */
  method CollectRun(lines: seq<PatchLine>, i: nat, kind: Kind) returns (run: seq<PatchLine>, next: nat)
    requires i <= |lines|
    ensures i <= next <= |lines| && run == lines[i..next] && AllKind(run, kind)
    ensures next == |lines| || lines[next].kind != kind
  {
    run, next := [], i;
    while next < |lines| && lines[next].kind == kind
      invariant i <= next <= |lines| && run == lines[i..next] && AllKind(run, kind)
    {
      run := run + [lines[next]];
      next := next + 1;
    }
  }

  lemma {:induction false} AllOn(f: PatchLine -> seq<PatchLine>, run: seq<PatchLine>, on: bool)
    requires Selects(f, run, on)
    ensures FlatMap(f, run) == if on then run else []
  {
    if run != [] {
      AllOn(f, run[1..], on);
      assert [run[0]] + run[1..] == run;
    }
  }

  lemma SnocPair(f: Pair -> seq<PatchLine>, pairs: seq<Pair>, p: Pair)
    ensures FlatMap(f, pairs + [p]) == FlatMap(f, pairs) + f(p)
  {
    FlatMapAppend(f, pairs, [p]);
    FlatMapOne(f, p);
  }

  function Upto(run: seq<PatchLine>, j: nat): seq<PatchLine> {
    if j <= |run| then run[..j] else run
  }

  lemma UptoNext(run: seq<PatchLine>, j: nat)
    ensures Upto(run, j + 1) == Upto(run, j) + (if j < |run| then [run[j]] else [])
  {
  }

  /** The j-th deletion beside the j-th addition, down to the longer of the two. */
  method PairUp(dels: seq<PatchLine>, adds: seq<PatchLine>) returns (pairs: seq<Pair>)
    requires AllKind(dels, Del) && AllKind(adds, Add)
    ensures FlatMap(LEFT, pairs) == dels && FlatMap(RIGHT, pairs) == adds && AllRows(pairs)
    ensures |pairs| == if |dels| > |adds| then |dels| else |adds|
  {
    var maxLen := if |dels| > |adds| then |dels| else |adds|;
    pairs := [];
    var j := 0;
    while j < maxLen
      invariant 0 <= j <= maxLen && Paired(dels, adds, pairs, j)
    {
      var pair := Pair(if j < |dels| then Some(dels[j]) else None, if j < |adds| then Some(adds[j]) else None, false);
      PairedNext(dels, adds, pairs, j, pair);
      pairs := pairs + [pair];
      j := j + 1;
    }
  }

  /** The rows pair the first `j` deletions and additions. */
  ghost predicate Paired(dels: seq<PatchLine>, adds: seq<PatchLine>, pairs: seq<Pair>, j: nat) {
    |pairs| == j && AllRows(pairs) && FlatMap(LEFT, pairs) == Upto(dels, j) && FlatMap(RIGHT, pairs) == Upto(adds, j)
  }

  lemma PairedNext(dels: seq<PatchLine>, adds: seq<PatchLine>, pairs: seq<Pair>, j: nat, pair: Pair)
    requires Paired(dels, adds, pairs, j) && AllKind(dels, Del) && AllKind(adds, Add) && (j < |dels| || j < |adds|)
    requires pair == Pair(if j < |dels| then Some(dels[j]) else None, if j < |adds| then Some(adds[j]) else None, false)
    ensures Paired(dels, adds, pairs + [pair], j + 1)
  {
    SnocPair(LEFT, pairs, pair);
    SnocPair(RIGHT, pairs, pair);
    UptoNext(dels, j);
    UptoNext(adds, j);
    assert IsRow(pair);
  }

  /** What the rows so far show, with what the remaining lines are to show, is each side of the whole. */
  ghost predicate Covers(pairs: seq<Pair>, lines: seq<PatchLine>, i: nat)
    requires i <= |lines|
  {
    && FlatMap(LEFT, pairs) + FlatMap(ON_LEFT, lines[i..]) == FlatMap(ON_LEFT, lines)
    && FlatMap(RIGHT, pairs) + FlatMap(ON_RIGHT, lines[i..]) == FlatMap(ON_RIGHT, lines)
    && AllRows(pairs)
  }

  lemma CoversNothing(lines: seq<PatchLine>)
    ensures Covers([], lines, 0)
  {
    assert lines[0..] == lines;
    assert [] + FlatMap(ON_LEFT, lines) == FlatMap(ON_LEFT, lines);
    assert [] + FlatMap(ON_RIGHT, lines) == FlatMap(ON_RIGHT, lines);
  }

  lemma CoversAll(pairs: seq<Pair>, lines: seq<PatchLine>)
    requires Covers(pairs, lines, |lines|)
    ensures FlatMap(LEFT, pairs) == FlatMap(ON_LEFT, lines) && FlatMap(RIGHT, pairs) == FlatMap(ON_RIGHT, lines)
    ensures AllRows(pairs)
  {
    assert FlatMap(ON_LEFT, lines[|lines|..]) == [] && FlatMap(ON_RIGHT, lines[|lines|..]) == [];
  }

  lemma CoversBoth(pairs: seq<Pair>, lines: seq<PatchLine>, i: nat, isHunk: bool)
    requires i < |lines| && Covers(pairs, lines, i)
    requires lines[i].kind == if isHunk then HunkLine else Context
    ensures Covers(pairs + [Pair(Some(lines[i]), Some(lines[i]), isHunk)], lines, i + 1)
  {
    var p := Pair(Some(lines[i]), Some(lines[i]), isHunk);
    NextOn(ON_LEFT, lines, i);
    NextOn(ON_RIGHT, lines, i);
    SnocPair(LEFT, pairs, p);
    SnocPair(RIGHT, pairs, p);
    Assoc(FlatMap(LEFT, pairs), [lines[i]], FlatMap(ON_LEFT, lines[i + 1..]));
    Assoc(FlatMap(RIGHT, pairs), [lines[i]], FlatMap(ON_RIGHT, lines[i + 1..]));
  }

  ghost predicate Selects(f: PatchLine -> seq<PatchLine>, run: seq<PatchLine>, on: bool) {
    forall i :: 0 <= i < |run| ==> f(run[i]) == if on then [run[i]] else []
  }

  lemma RunOn(f: PatchLine -> seq<PatchLine>, first: seq<PatchLine>, second: seq<PatchLine>, rest: seq<PatchLine>,
              onFirst: bool)
    requires Selects(f, first, onFirst) && Selects(f, second, !onFirst)
    ensures FlatMap(f, first + (second + rest)) == (if onFirst then first else second) + FlatMap(f, rest)
  {
    FlatMapAppend(f, first, second + rest);
    FlatMapAppend(f, second, rest);
    AllOn(f, first, onFirst);
    AllOn(f, second, !onFirst);
    var tail := FlatMap(f, rest);
    assert [] + tail == tail;
    assert first + ([] + tail) == first + tail;
    assert [] + (second + tail) == second + tail;
  }

  lemma CoverSide(side: Pair -> seq<PatchLine>, on: PatchLine -> seq<PatchLine>, pairs: seq<Pair>, more: seq<Pair>,
                  whole: seq<PatchLine>, now: seq<PatchLine>, later: seq<PatchLine>)
    requires FlatMap(side, pairs) + FlatMap(on, now) == whole
    requires FlatMap(on, now) == FlatMap(side, more) + FlatMap(on, later)
    ensures FlatMap(side, pairs + more) + FlatMap(on, later) == whole
  {
    FlatMapAppend(side, pairs, more);
    Assoc(FlatMap(side, pairs), FlatMap(side, more), FlatMap(on, later));
  }

  lemma ThreeParts(lines: seq<PatchLine>, i: nat, m: nat, next: nat)
    requires i <= m <= next <= |lines|
    ensures lines[i..] == lines[i..m] + (lines[m..next] + lines[next..])
  {
  }

  lemma CoversRun(pairs: seq<Pair>, more: seq<Pair>, lines: seq<PatchLine>, i: nat, m: nat, next: nat)
    requires i <= m <= next <= |lines| && Covers(pairs, lines, i) && AllRows(more)
    requires AllKind(lines[i..m], Del) && AllKind(lines[m..next], Add)
    requires FlatMap(LEFT, more) == lines[i..m] && FlatMap(RIGHT, more) == lines[m..next]
    ensures Covers(pairs + more, lines, next)
  {
    ThreeParts(lines, i, m, next);
    RunOn(ON_LEFT, lines[i..m], lines[m..next], lines[next..], true);
    RunOn(ON_RIGHT, lines[i..m], lines[m..next], lines[next..], false);
    CoverSide(LEFT, ON_LEFT, pairs, more, FlatMap(ON_LEFT, lines), lines[i..], lines[next..]);
    CoverSide(RIGHT, ON_RIGHT, pairs, more, FlatMap(ON_RIGHT, lines), lines[i..], lines[next..]);
  }

  /**
   * The left column, gaps aside, is exactly the hunk, context and deleted lines in order, and the right column
   * exactly the hunk, context and added lines.
   */
  method ParsePatchSideBySide(lines: seq<PatchLine>) returns (pairs: seq<Pair>)
    ensures FlatMap(LEFT, pairs) == FlatMap(ON_LEFT, lines)
    ensures FlatMap(RIGHT, pairs) == FlatMap(ON_RIGHT, lines)
    ensures AllRows(pairs)
  {
    pairs := [];
    var i := 0;
    CoversNothing(lines);
    while i < |lines|
      invariant 0 <= i <= |lines| && Covers(pairs, lines, i)
    {
      var line := lines[i];
      if line.kind == HunkLine {
        CoversBoth(pairs, lines, i, true);
        pairs := pairs + [Pair(Some(line), Some(line), true)];
        i := i + 1;
        continue;
      }
      if line.kind == Context {
        CoversBoth(pairs, lines, i, false);
        pairs := pairs + [Pair(Some(line), Some(line), false)];
        i := i + 1;
        continue;
      }
      var dels, m := CollectRun(lines, i, Del);
      var adds, next := CollectRun(lines, m, Add);
      var more := PairUp(dels, adds);
      CoversRun(pairs, more, lines, i, m, next);
      pairs := pairs + more;
      i := next;
    }
    CoversAll(pairs, lines);
  }

  // ---------------------------------------------------------------- highlighting

  datatype Style = Comment | Str | Numeral | Keyword | Plain

  datatype Token = Token(style: Style, text: string)

  /** A line is shown as it is or as tokens. */
  datatype Shown = AsIs(content: string) | Tokens(tokens: seq<Token>)

  const TEXT: Token -> string := (t: Token) => t.text

  predicate IsHashCommented(ext: string) {
    ext in [".py", ".sh", ".bash", ".zsh", ".yaml", ".yml", ".toml"]
  }

  predicate IsLetter(c: char) { 'a' <= c <= 'z' || 'A' <= c <= 'Z' }
  predicate IsWordStart(c: char) { IsLetter(c) || c == '_' }
  predicate IsWordChar(c: char) { IsWordStart(c) || IsDigit(c) }
  predicate IsNumberChar(c: char) { IsDigit(c) || 'a' <= c <= 'f' || 'A' <= c <= 'F' || c in "x._" }
  predicate StopsPlain(c: char) { IsWordChar(c) || c in "\"'`#/" }
  predicate StartsNumberAfter(c: char) { IsSpace(c) || c in "(,=+-*/<>[]{}:;!&|^~%" }

  /** A comment runs from here to the end of the line. */
  predicate IsComment(content: string, i: nat, ext: string)
    requires i < |content|
  {
    || (content[i] == '/' && i + 1 < |content| && content[i + 1] == '/')
    || (content[i] == '#' && IsHashCommented(ext))
  }

  /** A number starts here: a digit that does not go on a word. */
  predicate IsNumberStart(content: string, i: nat)
    requires i < |content|
  {
    IsDigit(content[i]) && (i == 0 || StartsNumberAfter(content[i - 1]))
  }

  /** The token that stands at `i`: its style and where it ends. */
  ghost predicate IsToken(content: string, i: nat, j: nat, style: Style, ext: string, keywords: set<string>) {
    && i < j <= |content|
    && if IsComment(content, i, ext) then style == Comment && j == |content|
       else if content[i] in "\"'`" then style == Str && IsString(content, i, j)
       else if IsNumberStart(content, i) then style == Numeral && IsRun(content, i, j, c => IsNumberChar(c))
       else if IsWordStart(content[i]) then
         && IsRun(content, i, j, c => IsWordChar(c)) && style == (if content[i..j] in keywords then Keyword else Plain)
       else style == Plain && if StopsPlain(content[i]) then j == i + 1 else IsRun(content, i, j, c => !StopsPlain(c))
  }

  /** The characters from `i` to `j` are of this kind, and the next one is not. */
  ghost predicate IsRun(content: string, i: nat, j: nat, kind: char -> bool) {
    i <= j <= |content| && (forall k :: i <= k < j ==> kind(content[k])) && (j == |content| || !kind(content[j]))
  }

  /** How many backslashes stand right before `k`, not counting any before `from`. */
  function Backslashes(content: string, from: nat, k: nat): nat
    requires from <= k <= |content|
  {
    if k > from && content[k - 1] == '\\' then 1 + Backslashes(content, from, k - 1) else 0
  }

  /** The quote at `k` closes the string opened at `i`: the same character, not escaped. */
  predicate Closes(content: string, i: nat, k: nat) {
    i < k < |content| && content[k] == content[i] && Backslashes(content, i + 1, k) % 2 == 0
  }

  /** A string token ends after the first quote that closes it, or with the line. */
  ghost predicate IsString(content: string, i: nat, j: nat) {
    && i < j <= |content|
    && (forall k :: i < k < j - 1 ==> !Closes(content, i, k))
    && (Closes(content, i, j - 1) || (j == |content| && forall k :: i < k < j ==> !Closes(content, i, k)))
  }

  method ScanString(content: string, i: nat) returns (j: nat)
    requires i < |content| && content[i] in "\"'`"
    ensures IsString(content, i, j)
  {
    j := i + 1;
    while j < |content| && content[j] != content[i]
      invariant i < j <= |content| + 1
      invariant j <= |content| ==> Backslashes(content, i + 1, j) % 2 == 0
      invariant forall k :: i < k < j ==> !Closes(content, i, k)
      decreases |content| + 1 - j
    {
      if content[j] == '\\' {
        j := j + 1;
        if j < |content| { assert Backslashes(content, i + 1, j) % 2 == 1; }
      }
      j := j + 1;
    }
    j := if j + 1 < |content| then j + 1 else |content|;
  }

  method ScanWhile(content: string, i: nat, keep: char -> bool) returns (j: nat)
    requires i <= |content|
    ensures i <= j <= |content| && (forall k :: i <= k < j ==> keep(content[k]))
    ensures (j == |content| || !keep(content[j]))
  {
    j := i;
    while j < |content| && keep(content[j])
      invariant i <= j <= |content| && forall k :: i <= k < j ==> keep(content[k])
    {
      j := j + 1;
    }
  }

  /** The rule that applies at `i`, and where its token ends. */
  method NextToken(content: string, i: nat, ext: string, keywords: set<string>) returns (style: Style, j: nat)
    requires i < |content|
    ensures IsToken(content, i, j, style, ext, keywords)
  {
    var c := content[i];
    if c == '/' && i + 1 < |content| && content[i + 1] == '/' { return Comment, |content|; }
    if c == '#' && IsHashCommented(ext) { return Comment, |content|; }
    if c == '"' || c == '\'' || c == '`' {
      j := ScanString(content, i);
      return Str, j;
    }
    if IsDigit(c) && (i == 0 || StartsNumberAfter(content[i - 1])) {
      j := ScanWhile(content, i, ch => IsNumberChar(ch));
      return Numeral, j;
    }
    if IsWordStart(c) {
      j := ScanWhile(content, i, ch => IsWordChar(ch));
      style := if content[i..j] in keywords then Keyword else Plain;
      return;
    }
    j := ScanWhile(content, i, ch => !StopsPlain(ch));
    if j == i { j := i + 1; }
    style := Plain;
  }

  /** Every token is in its place: it is the token that stands there, and they follow one another from the start. */
  ghost predicate AreTokens(content: string, tokens: seq<Token>, i: nat, ext: string, keywords: set<string>)
    decreases |tokens|
  {
    if tokens == [] then i == 0
    else
      var last := tokens[|tokens| - 1];
      && |last.text| <= i <= |content| && last.text == content[i - |last.text|..i]
      && IsToken(content, i - |last.text|, i, last.style, ext, keywords)
      && AreTokens(content, tokens[..|tokens| - 1], i - |last.text|, ext, keywords)
  }

  lemma AreTokensSnoc(content: string, tokens: seq<Token>, i: nat, j: nat, style: Style, ext: string,
                      keywords: set<string>)
    requires AreTokens(content, tokens, i, ext, keywords) && IsToken(content, i, j, style, ext, keywords)
    ensures AreTokens(content, tokens + [Token(style, content[i..j])], j, ext, keywords)
  {
    assert (tokens + [Token(style, content[i..j])])[..|tokens|] == tokens;
  }

  lemma {:induction false} TokensConcat(content: string, tokens: seq<Token>, i: nat, ext: string,
                                        keywords: set<string>)
    requires i <= |content| && AreTokens(content, tokens, i, ext, keywords)
    ensures FlatMap(TEXT, tokens) == content[..i]
    ensures forall k :: 0 <= k < |tokens| ==> tokens[k].text != ""
    decreases |tokens|
  {
    if tokens != [] {
      var last := tokens[|tokens| - 1];
      var init, at := tokens[..|tokens| - 1], i - |last.text|;
      TokensConcat(content, init, at, ext, keywords);
      assert tokens == init + [last];
      FlatMapAppend(TEXT, init, [last]);
      FlatMapOne(TEXT, last);
      assert content[..at] + content[at..i] == content[..i];
    }
  }

  /**
   * Highlighting loses and adds nothing: the tokens are non-empty and spell the line, whatever it is, unterminated
   * strings and trailing backslashes included.
   */
  method HighlightLine(content: string, ext: string, codeExtensions: set<string>, keywords: set<string>)
    returns (shown: Shown)
    ensures shown.AsIs? ==> shown.content == content
    ensures shown.Tokens? ==>
              && ext in codeExtensions
              && FlatMap(TEXT, shown.tokens) == content
              && (forall k :: 0 <= k < |shown.tokens| ==> shown.tokens[k].text != "")
              && AreTokens(content, shown.tokens, |content|, ext, keywords)
    ensures shown.AsIs? <==> ext !in codeExtensions || content == ""
  {
    if ext !in codeExtensions { return AsIs(content); }
    var tokens: seq<Token> := [];
    var i := 0;
    while i < |content|
      invariant 0 <= i <= |content| && AreTokens(content, tokens, i, ext, keywords)
    {
      var style, j := NextToken(content, i, ext, keywords);
      AreTokensSnoc(content, tokens, i, j, style, ext, keywords);
      tokens := tokens + [Token(style, content[i..j])];
      i := j;
    }
    TokensConcat(content, tokens, i, ext, keywords);
    assert content[..i] == content;
    shown := if |tokens| > 0 then Tokens(tokens) else AsIs(content);
  }
}
