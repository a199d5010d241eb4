/** Strings: numerals, splitting and joining, as the other modules need them. */
module Text {
  import opened Common

  // ---------------------------------------------------------------- numerals

  function Pow(base: nat, exponent: nat): nat {
    if exponent == 0 then 1 else base * Pow(base, exponent - 1)
  }

  function DigitChar(d: nat): char
    requires d < 16
  {
    if d < 10 then '0' + d as char else 'a' + (d - 10) as char
  }

  function DigitValue(c: char): Option<nat> {
    if '0' <= c <= '9' then Some((c - '0') as nat)
    else if 'a' <= c <= 'f' then Some((c - 'a') as nat + 10)
    else if 'A' <= c <= 'F' then Some((c - 'A') as nat + 10)
    else None
  }

  /** `n` in exactly `width` digits, the higher ones dropped. */
  function Digits(n: nat, base: nat, width: nat): (s: string)
    requires 2 <= base <= 16
    ensures |s| == width
    decreases width
  {
    if width == 0 then "" else Digits(n / base, base, width - 1) + [DigitChar(n % base)]
  }

  function Value(s: string, base: nat): Option<nat>
    decreases |s|
  {
    if s == "" then Some(0)
    else
      var high :- Value(s[..|s| - 1], base);
      var low :- DigitValue(s[|s| - 1]);
      if low < base then Some(high * base + low) else None
  }

  lemma DigitBack(d: nat)
    requires d < 16
    ensures DigitValue(DigitChar(d)) == Some(d)
  {
  }

  lemma ValueSnoc(s: string, d: nat, base: nat, high: nat)
    requires d < base <= 16 && Value(s, base) == Some(high)
    ensures Value(s + [DigitChar(d)], base) == Some(high * base + d)
  {
    DigitBack(d);
    var t := s + [DigitChar(d)];
    assert t[..|t| - 1] == s && t[|t| - 1] == DigitChar(d);
  }

  lemma DivMod(n: nat, b: nat)
    requires b > 0
    ensures n / b * b + n % b == n && n % b < b
  {
  }

  lemma {:induction false} ValueOfDigits(n: nat, base: nat, width: nat)
    requires 2 <= base <= 16 && n < Pow(base, width)
    ensures Value(Digits(n, base, width), base) == Some(n)
    decreases width
  {
    if width > 0 {
      QuotientBound(n, base, Pow(base, width - 1));
      ValueOfDigits(n / base, base, width - 1);
      DivMod(n, base);
      ValueSnoc(Digits(n / base, base, width - 1), n % base, base, n / base);
    }
  }

  lemma QuotientBound(n: nat, b: nat, bound: nat)
    requires b > 0 && n < b * bound
    ensures n / b < bound
  {
  }

  /** The decimal numeral of a natural number (Go's %d). */
  function Decimal(n: nat): string {
    (if n < 10 then "" else Decimal(n / 10)) + [(n % 10) as char + '0']
  }

  predicate IsDigit(c: char) { '0' <= c <= '9' }

  /** The length of the longest prefix of digits. */
  function DigitRun(s: string): (n: nat)
    ensures n <= |s|
  {
    if s != "" && IsDigit(s[0]) then 1 + DigitRun(s[1..]) else 0
  }

  lemma {:induction false} DigitsAreDigits(n: nat, width: nat)
    ensures forall i :: 0 <= i < width ==> IsDigit(Digits(n, 10, width)[i])
    decreases width
  {
    if width > 0 { DigitsAreDigits(n / 10, width - 1); }
  }

  lemma {:induction false} DigitRunOf(d: string, rest: string)
    requires forall i :: 0 <= i < |d| ==> IsDigit(d[i])
    requires rest == "" || !IsDigit(rest[0])
    ensures DigitRun(d + rest) == |d|
    decreases |d|
  {
    if d == "" {
      assert d + rest == rest;
    } else {
      assert (d + rest)[1..] == d[1..] + rest;
      DigitRunOf(d[1..], rest);
    }
  }

  lemma {:induction false} DecimalIsDigits(n: nat)
    ensures |Decimal(n)| > 0 && forall i :: 0 <= i < |Decimal(n)| ==> IsDigit(Decimal(n)[i])
    decreases n
  {
    if n >= 10 { DecimalIsDigits(n / 10); }
  }

  // ---------------------------------------------------------------- splitting at a character

  /** The first place `c` occurs at or after `from`, the end if there is none. */
  function IndexOf(s: string, c: char, from: nat): (r: nat)
    requires from <= |s|
    ensures from <= r <= |s| && (r < |s| ==> s[r] == c) && forall i :: from <= i < r ==> s[i] != c
    decreases |s| - from
  {
    if from == |s| || s[from] == c then from else IndexOf(s, c, from + 1)
  }

  /** strings.SplitN(s, sep, 2): the part before the first `sep`, and the rest if there is one. */
  function SplitOnce(s: string, sep: char): (string, Option<string>) {
    var i := IndexOf(s, sep, 0);
    if i == |s| then (s, None) else (s[..i], Some(s[i + 1..]))
  }

  lemma SplitOnceAt(a: string, b: string, sep: char)
    requires forall i :: 0 <= i < |a| ==> a[i] != sep
    ensures SplitOnce(a + [sep] + b, sep) == (a, Some(b))
  {
    var s := a + [sep] + b;
    assert s[|a|] == sep && forall i :: 0 <= i < |a| ==> s[i] == a[i];
    assert IndexOf(s, sep, 0) == |a|;
    assert s[..|a|] == a && s[|a| + 1..] == b;
  }

  lemma SplitOnceNowhere(s: string, sep: char)
    requires forall i :: 0 <= i < |s| ==> s[i] != sep
    ensures SplitOnce(s, sep) == (s, None)
  {
  }

  // ---------------------------------------------------------------- splitting at a separator

  predicate At(s: string, sep: string, j: nat) { j + |sep| <= |s| && s[j..j + |sep|] == sep }

  /** The first place at or after `from` where `sep` occurs. */
  function FirstFrom(s: string, sep: string, from: nat): (r: Option<nat>)
    ensures r.Some? ==> r.value + |sep| <= |s|
    decreases |s| + 1 - from
  {
    if from + |sep| > |s| then None
    else if s[from..from + |sep|] == sep then Some(from)
    else FirstFrom(s, sep, from + 1)
  }

  function FirstAt(s: string, sep: string): (r: Option<nat>)
    ensures r.Some? ==> r.value + |sep| <= |s|
  {
    FirstFrom(s, sep, 0)
  }

  lemma {:induction false} FirstFromFacts(s: string, sep: string, from: nat)
    ensures match FirstFrom(s, sep, from)
            case Some(i) => from <= i && At(s, sep, i) && forall j :: from <= j < i ==> !At(s, sep, j)
            case None => forall j :: from <= j ==> !At(s, sep, j)
    decreases |s| + 1 - from
  {
    if from + |sep| <= |s| && s[from..from + |sep|] != sep { FirstFromFacts(s, sep, from + 1); }
  }

  /** s.split(sep). */
  function Split(s: string, sep: string): (parts: seq<string>)
    requires sep != ""
    ensures |parts| > 0
    decreases |s|
  {
    match FirstAt(s, sep)
    case None => [s]
    case Some(i) => [s[..i]] + Split(s[i + |sep|..], sep)
  }

  function Init(parts: seq<string>): seq<string>
    requires |parts| > 0
  {
    parts[..|parts| - 1]
  }

  function Last(parts: seq<string>): string
    requires |parts| > 0
  {
    parts[|parts| - 1]
  }

  lemma FirstAtUnique(s: string, sep: string, i: nat)
    requires At(s, sep, i) && forall j :: 0 <= j < i ==> !At(s, sep, j)
    ensures FirstAt(s, sep) == Some(i)
  {
    FirstFromFacts(s, sep, 0);
  }

  lemma FirstAtNone(s: string, sep: string)
    requires forall j: nat :: !At(s, sep, j)
    ensures FirstAt(s, sep) == None
  {
    FirstFromFacts(s, sep, 0);
  }

  /** A first match stays the first match when text is appended. */
  lemma FirstAtAppend(a: string, b: string, sep: string)
    requires FirstAt(a, sep).Some?
    ensures FirstAt(a + b, sep) == FirstAt(a, sep)
  {
    var i := FirstAt(a, sep).value;
    FirstFromFacts(a, sep, 0);
    assert (a + b)[i..i + |sep|] == a[i..i + |sep|];
    forall j | 0 <= j < i ensures !At(a + b, sep, j) {
      assert !At(a, sep, j);
      assert (a + b)[j..j + |sep|] == a[j..j + |sep|];
    }
    FirstAtUnique(a + b, sep, i);
  }

  lemma SplitCons(s: string, sep: string, i: nat)
    requires sep != "" && FirstAt(s, sep) == Some(i)
    ensures i + |sep| <= |s|
    ensures Split(s, sep) == [s[..i]] + Split(s[i + |sep|..], sep)
  {
  }

  lemma SplitNone(s: string, sep: string)
    requires sep != "" && FirstAt(s, sep) == None
    ensures Split(s, sep) == [s]
  {
  }

  lemma InitLastCons(first: string, parts: seq<string>)
    requires |parts| > 0
    ensures Init([first] + parts) == [first] + Init(parts) && Last([first] + parts) == Last(parts)
  {
  }

  lemma ConsAppend(first: string, a: seq<string>, b: seq<string>)
    ensures [first] + (a + b) == ([first] + a) + b
  {
  }

  /** The first part of a split is unaffected by appended text. */
  lemma SplitFirst(a: string, b: string, sep: string, i: nat)
    requires sep != "" && FirstAt(a, sep) == Some(i)
    ensures i + |sep| <= |a| && Split(a + b, sep) == [a[..i]] + Split(a[i + |sep|..] + b, sep)
  {
    FirstAtAppend(a, b, sep);
    SplitCons(a + b, sep, i);
    assert (a + b)[..i] == a[..i] && (a + b)[i + |sep|..] == a[i + |sep|..] + b;
  }

  /** Splitting as text arrives, carrying the last part over, is splitting the whole. */
  lemma {:induction false} SplitAppend(a: string, b: string, sep: string)
    requires sep != ""
    ensures Split(a + b, sep) == Init(Split(a, sep)) + Split(Last(Split(a, sep)) + b, sep)
    decreases |a|
  {
    var first := FirstAt(a, sep);
    if first == None {
      SplitNone(a, sep);
      assert Init([a]) == [];
    } else {
      var i := first.value;
      var rest := a[i + |sep|..];
      SplitFirst(a, b, sep, i);
      SplitAppend(rest, b, sep);
      SplitCons(a, sep, i);
      var parts := Split(rest, sep);
      InitLastCons(a[..i], parts);
      ConsAppend(a[..i], Init(parts), Split(Last(parts) + b, sep));
    }
  }

  /** The characters String.prototype.trim removes. */
  predicate IsSpace(c: char) {
    || c in " \t\n\r" || c as int in {0x0b, 0x0c, 0xa0, 0x1680, 0x2028, 0x2029, 0x202f, 0x205f, 0x3000, 0xfeff}
    || 0x2000 <= c as int <= 0x200a
  }

  predicate IsBlank(s: string) { forall i :: 0 <= i < |s| ==> IsSpace(s[i]) }

  predicate StartsWith(s: string, prefix: string) { |prefix| <= |s| && s[..|prefix|] == prefix }

  lemma StartsWithFirst(s: string, prefix: string)
    requires prefix != "" && StartsWith(s, prefix)
    ensures s != "" && s[0] == prefix[0]
  {
    assert s[..|prefix|][0] == s[0];
  }

  lemma StartsWithOne(s: string, c: char)
    ensures StartsWith(s, [c]) <==> s != "" && s[0] == c
  {
    if s != "" { assert s[..1] == [s[0]]; }
  }

  function Concat(chunks: seq<string>): string {
    if chunks == [] then "" else chunks[0] + Concat(chunks[1..])
  }

  predicate IsLine(s: string) { forall i :: 0 <= i < |s| ==> s[i] != '\n' }

  lemma LineEnds(line: string, rest: string)
    requires IsLine(line)
    ensures FirstAt(line + "\n" + rest, "\n") == Some(|line|)
  {
    var s := line + "\n" + rest;
    assert s[|line|..|line| + 1] == "\n";
    forall j | 0 <= j < |line| ensures !At(s, "\n", j) {
      assert s[j..j + 1][0] == line[j];
    }
    FirstAtUnique(s, "\n", |line|);
  }

  lemma NoNewline(line: string)
    requires IsLine(line)
    ensures FirstAt(line, "\n") == None
  {
    forall j: nat ensures !At(line, "\n", j) {
      if j < |line| { assert line[j..j + 1][0] == line[j]; }
    }
    FirstAtNone(line, "\n");
  }

  /** Lines with a line feed between each two. */
  function JoinLines(lines: seq<string>): string
    requires lines != []
  {
    if |lines| == 1 then lines[0] else lines[0] + "\n" + JoinLines(lines[1..])
  }

  /** Splitting at line feeds undoes joining. */
  lemma {:induction false} SplitJoined(lines: seq<string>)
    requires lines != [] && forall i :: 0 <= i < |lines| ==> IsLine(lines[i])
    ensures Split(JoinLines(lines), "\n") == lines
    decreases |lines|
  {
    var line := lines[0];
    if |lines| == 1 {
      NoNewline(line);
      SplitNone(line, "\n");
    } else {
      var rest := JoinLines(lines[1..]);
      SplitJoined(lines[1..]);
      LineEnds(line, rest);
      var s := line + "\n" + rest;
      SplitCons(s, "\n", |line|);
      assert s[..|line|] == line && s[|line| + 1..] == rest;
      assert [line] + lines[1..] == lines;
    }
  }
}
