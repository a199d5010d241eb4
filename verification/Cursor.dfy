/**
 * Pagination cursors (internal/pagination/cursor.go): a timestamp and an id, printed as RFC 3339 with
 * nanoseconds, a bar and a UUID, the whole in standard base64 (section 4 of RFC 4648).
 *
 * Strings are sequences of bytes. Times follow the grammar of section 5.6 of RFC 3339.
 */
module Cursor {
  import opened Common
  import opened Text

  type Uuid = nat

  /** A time as it prints: civil fields and the offset from UTC in minutes. */
  datatype Time = Time(year: nat, month: nat, day: nat, hour: nat, minute: nat, second: nat, nanos: nat, offset: int)

  datatype CursorError = InvalidCursor | InvalidTime | InvalidId

  const NIL: Uuid := 0

  // ---------------------------------------------------------------- reading

  /** Reads exactly `width` digits. */
  function TakeDigits(s: string, base: nat, width: nat): Option<(nat, string)> {
    if |s| < width then None
    else
      var n :- Value(s[..width], base);
      Some((n, s[width..]))
  }

  function Expect(s: string, c: char): Option<string> {
    if s != "" && s[0] == c then Some(s[1..]) else None
  }

  lemma TakeBack(n: nat, base: nat, width: nat, rest: string)
    requires 2 <= base <= 16 && n < Pow(base, width)
    ensures TakeDigits(Digits(n, base, width) + rest, base, width) == Some((n, rest))
  {
    ValueOfDigits(n, base, width);
    var s := Digits(n, base, width) + rest;
    assert s[..width] == Digits(n, base, width) && s[width..] == rest;
  }

  lemma ExpectBack(c: char, rest: string)
    ensures Expect([c] + rest, c) == Some(rest)
  {
  }

  // ---------------------------------------------------------------- times

  predicate IsLeap(year: nat) { year % 4 == 0 && (year % 100 != 0 || year % 400 == 0) }

  function DaysIn(month: nat, year: nat): nat {
    if month == 2 then (if IsLeap(year) then 29 else 28)
    else if month in [4, 6, 9, 11] then 30
    else 31
  }

  /** The fields of an actual time; a year beyond 9999 is possible but has no RFC 3339 form. */
  predicate IsTime(t: Time) {
    && 1 <= t.month <= 12 && 1 <= t.day <= DaysIn(t.month, t.year)
    && t.hour < 24 && t.minute < 60 && t.second < 60 && t.nanos < 1_000_000_000
    && -1440 < t.offset < 1440
  }

  function TrimZeros(s: string): (r: string)
    ensures r <= s
    decreases |s|
  {
    if s != "" && s[|s| - 1] == '0' then TrimZeros(s[..|s| - 1]) else s
  }

  function Fraction(nanos: nat): string {
    if nanos == 0 then "" else "." + TrimZeros(Digits(nanos, 10, 9))
  }

  function Abs(n: int): nat { if n < 0 then -n else n }

  function Zone(offset: int): string {
    if offset == 0 then "Z"
    else (if offset < 0 then "-" else "+") + (Digits(Abs(offset) / 60, 10, 2) + (":" + Digits(Abs(offset) % 60, 10, 2)))
  }

  /** Years are padded to four digits and printed in full when longer. */
  function Year(year: nat): string {
    if year < 10000 then Digits(year, 10, 4) else Decimal(year)
  }

  /** t.Format(time.RFC3339Nano). */
  function FormatTime(t: Time): string {
    Year(t.year) + ("-" + (Digits(t.month, 10, 2) + ("-" + (Digits(t.day, 10, 2) + ("T" + FormatClock(t))))))
  }

  function FormatClock(t: Time): string {
    Digits(t.hour, 10, 2) + (":" + (Digits(t.minute, 10, 2) + (":" + (Digits(t.second, 10, 2)
    + (Fraction(t.nanos) + Zone(t.offset))))))
  }

  /** Nanoseconds of a fraction: its first nine digits. */
  function NanosOf(digits: string): Option<nat> {
    var d := if |digits| > 9 then digits[..9] else digits;
    var v :- Value(d, 10);
    Some(v * Pow(10, 9 - |d|))
  }

  function ParseFraction(s: string): Option<(nat, string)> {
    if |s| >= 2 && s[0] == '.' && IsDigit(s[1]) then
      var n := DigitRun(s[1..]);
      var nanos :- NanosOf(s[1..][..n]);
      Some((nanos, s[1..][n..]))
    else Some((0, s))
  }

  function ParseZone(s: string): Option<int> {
    if s == "Z" then Some(0)
    else if |s| != 6 || (s[0] != '+' && s[0] != '-') then None
    else
      var (hours, s1) :- TakeDigits(s[1..], 10, 2);
      var s2 :- Expect(s1, ':');
      var (minutes, s3) :- TakeDigits(s2, 10, 2);
      if hours >= 24 || minutes >= 60 || s3 != "" then None
      else Some(if s[0] == '-' then -(hours * 60 + minutes) else hours * 60 + minutes)
  }

  /** time.Parse(time.RFC3339Nano, s). */
  function ParseTime(s: string): Option<Time> {
    var (year, s1) :- TakeDigits(s, 10, 4);
    var s2 :- Expect(s1, '-');
    var (month, s3) :- TakeDigits(s2, 10, 2);
    var s4 :- Expect(s3, '-');
    var (day, s5) :- TakeDigits(s4, 10, 2);
    var s6 :- Expect(s5, 'T');
    ParseClock(year, month, day, s6)
  }

  function ParseClock(year: nat, month: nat, day: nat, s: string): Option<Time> {
    var (hour, s1) :- TakeDigits(s, 10, 2);
    var s2 :- Expect(s1, ':');
    var (minute, s3) :- TakeDigits(s2, 10, 2);
    var s4 :- Expect(s3, ':');
    var (second, s5) :- TakeDigits(s4, 10, 2);
    var (nanos, s6) :- ParseFraction(s5);
    var offset :- ParseZone(s6);
    var t := Time(year, month, day, hour, minute, second, nanos, offset);
    if IsTime(t) then Some(t) else None
  }

  lemma Pow10()
    ensures Pow(10, 2) == 100 && Pow(10, 4) == 10000 && Pow(10, 9) == 1_000_000_000
  {
    assert Pow(10, 2) == 10 * Pow(10, 1) == 100;
    assert Pow(10, 4) == 10 * (10 * Pow(10, 2));
    assert Pow(10, 9) == 10 * (10 * (10 * (10 * (10 * Pow(10, 4)))));
  }

  lemma ZoneBack(offset: int)
    requires -1440 < offset < 1440
    ensures ParseZone(Zone(offset)) == Some(offset)
  {
    if offset != 0 {
      Pow10();
      var h, m := Abs(offset) / 60, Abs(offset) % 60;
      var tail := Digits(h, 10, 2) + (":" + Digits(m, 10, 2));
      assert Zone(offset)[1..] == tail;
      TakeBack(h, 10, 2, ":" + Digits(m, 10, 2));
      ExpectBack(':', Digits(m, 10, 2));
      TakeBack(m, 10, 2, "");
      assert Digits(m, 10, 2) + "" == Digits(m, 10, 2);
    }
  }

  lemma ValueTimesTen(r: string)
    requires Value(r + "0", 10).Some?
    ensures Value(r, 10).Some? && Value(r + "0", 10).value == Value(r, 10).value * 10
  {
    assert (r + "0")[..|r|] == r;
  }

  lemma Rescale(v: nat, k: nat, n: nat)
    requires v * Pow(10, k) == n
    ensures v * Pow(10, k + 1) == n * 10
  {
    assert v * (10 * Pow(10, k)) == (v * Pow(10, k)) * 10;
  }

  /** Trimming zeros only rescales: the value comes back with the zeros' power of ten. */
  lemma {:induction false} TrimZerosValue(s: string)
    requires Value(s, 10).Some?
    ensures Value(TrimZeros(s), 10).Some?
    ensures Value(TrimZeros(s), 10).value * Pow(10, |s| - |TrimZeros(s)|) == Value(s, 10).value
    decreases |s|
  {
    if s == "" || s[|s| - 1] != '0' {
      assert TrimZeros(s) == s && Pow(10, 0) == 1;
    } else {
      var r := s[..|s| - 1];
      assert s == r + "0" && TrimZeros(s) == TrimZeros(r);
      ValueTimesTen(r);
      TrimZerosValue(r);
      Rescale(Value(TrimZeros(r), 10).value, |r| - |TrimZeros(r)|, Value(r, 10).value);
    }
  }

  lemma FractionParses(d: string, rest: string, nanos: nat)
    requires d != "" && |d| <= 9 && NanosOf(d) == Some(nanos)
    requires forall i :: 0 <= i < |d| ==> IsDigit(d[i])
    requires rest != "" && !IsDigit(rest[0])
    ensures ParseFraction("." + d + rest) == Some((nanos, rest))
  {
    var s := "." + d + rest;
    var tail := s[1..];
    assert tail == d + rest;
    assert s[1] == d[0];
    DigitRunOf(d, rest);
    assert tail[..|d|] == d && tail[|d|..] == rest;
  }

  lemma TrimmedNanosOf(full: string, v: nat)
    requires |full| == 9 && Value(full, 10) == Some(v) && v > 0
    ensures TrimZeros(full) != "" && NanosOf(TrimZeros(full)) == Some(v)
  {
    TrimZerosValue(full);
    var d := TrimZeros(full);
    var k: nat := 9 - |d|;
    assert Value(d, 10).value * Pow(10, k) == v;
    assert Value("", 10) == Some(0);
  }

  lemma TrimmedNanos(nanos: nat)
    requires 0 < nanos < Pow(10, 9)
    ensures var d := TrimZeros(Digits(nanos, 10, 9));
            d != "" && NanosOf(d) == Some(nanos) && forall i :: 0 <= i < |d| ==> IsDigit(d[i])
  {
    ValueOfDigits(nanos, 10, 9);
    TrimmedNanosOf(Digits(nanos, 10, 9), nanos);
    DigitsAreDigits(nanos, 9);
  }

  lemma FractionBack(nanos: nat, rest: string)
    requires nanos < 1_000_000_000
    requires rest != "" && !IsDigit(rest[0]) && rest[0] != '.'
    ensures ParseFraction(Fraction(nanos) + rest) == Some((nanos, rest))
  {
    if nanos == 0 {
      assert Fraction(nanos) + rest == rest;
    } else {
      Pow10();
      TrimmedNanos(nanos);
      FractionParses(TrimZeros(Digits(nanos, 10, 9)), rest, nanos);
    }
  }

  lemma ClockBack(t: Time)
    requires IsTime(t)
    ensures ParseClock(t.year, t.month, t.day, FormatClock(t)) == Some(t)
  {
    Pow10();
    var zone := Zone(t.offset);
    var s5 := Fraction(t.nanos) + zone;
    TakeBack(t.hour, 10, 2, ":" + (Digits(t.minute, 10, 2) + (":" + (Digits(t.second, 10, 2) + s5))));
    ExpectBack(':', Digits(t.minute, 10, 2) + (":" + (Digits(t.second, 10, 2) + s5)));
    TakeBack(t.minute, 10, 2, ":" + (Digits(t.second, 10, 2) + s5));
    ExpectBack(':', Digits(t.second, 10, 2) + s5);
    TakeBack(t.second, 10, 2, s5);
    FractionBack(t.nanos, zone);
    ZoneBack(t.offset);
  }

  lemma TimeBack(t: Time)
    requires IsTime(t) && t.year < 10000
    ensures ParseTime(FormatTime(t)) == Some(t)
  {
    Pow10();
    var clock := FormatClock(t);
    TakeBack(t.year, 10, 4, "-" + (Digits(t.month, 10, 2) + ("-" + (Digits(t.day, 10, 2) + ("T" + clock)))));
    ExpectBack('-', Digits(t.month, 10, 2) + ("-" + (Digits(t.day, 10, 2) + ("T" + clock))));
    assert DaysIn(t.month, t.year) < 100;
    TakeBack(t.month, 10, 2, "-" + (Digits(t.day, 10, 2) + ("T" + clock)));
    ExpectBack('-', Digits(t.day, 10, 2) + ("T" + clock));
    TakeBack(t.day, 10, 2, "T" + clock);
    ExpectBack('T', clock);
    ClockBack(t);
  }

  lemma {:induction false} DecimalIsLong(n: nat, width: nat)
    requires n >= Pow(10, width)
    ensures |Decimal(n)| > width && forall i :: 0 <= i < |Decimal(n)| ==> IsDigit(Decimal(n)[i])
    decreases width
  {
    if width > 0 {
      assert n / 10 >= Pow(10, width - 1);
      DecimalIsLong(n / 10, width - 1);
    } else {
      DecimalIsDigits(n);
    }
  }

  /** A five-digit year pushes a digit where the first hyphen must be. */
  lemma LongYearFails(t: Time)
    requires t.year >= 10000
    ensures ParseTime(FormatTime(t)) == None
  {
    Pow10();
    DecimalIsLong(t.year, 4);
    assert FormatTime(t)[4] == Decimal(t.year)[4];
  }

  // ---------------------------------------------------------------- ids

  function Dashed(hex: string): string
    requires |hex| == 32
  {
    hex[..8] + "-" + hex[8..12] + "-" + hex[12..16] + "-" + hex[16..20] + "-" + hex[20..]
  }

  /** id.String(). */
  function FormatUuid(id: Uuid): string {
    Dashed(Digits(id, 16, 32))
  }

  /** uuid.Parse on the 36-character form. */
  function ParseUuid(s: string): Option<Uuid> {
    if |s| == 36 && s[8] == '-' && s[13] == '-' && s[18] == '-' && s[23] == '-' then
      Value(s[..8] + s[9..13] + s[14..18] + s[19..23] + s[24..], 16)
    else None
  }

  predicate IsUuid(id: Uuid) { id < Pow(16, 32) }

  lemma DashedParts(hex: string)
    requires |hex| == 32
    ensures var s := Dashed(hex);
            && |s| == 36 && s[..8] == hex[..8] && s[9..13] == hex[8..12] && s[14..18] == hex[12..16]
            && s[19..23] == hex[16..20] && s[24..] == hex[20..]
            && s[8] == '-' && s[13] == '-' && s[18] == '-' && s[23] == '-'
  {
  }

  lemma DashedBack(hex: string)
    requires |hex| == 32
    ensures ParseUuid(Dashed(hex)) == Value(hex, 16)
  {
    DashedParts(hex);
    assert hex[..8] + hex[8..12] + hex[12..16] + hex[16..20] + hex[20..] == hex;
  }

  lemma UuidBack(id: Uuid)
    requires IsUuid(id)
    ensures ParseUuid(FormatUuid(id)) == Some(id)
  {
    ValueOfDigits(id, 16, 32);
    DashedBack(Digits(id, 16, 32));
  }

  // ---------------------------------------------------------------- base64

  /** The standard alphabet, table 1 of RFC 4648. */
  function SextetChar(n: nat): char
    requires n < 64
  {
    if n < 26 then 'A' + n as char
    else if n < 52 then 'a' + (n - 26) as char
    else if n < 62 then '0' + (n - 52) as char
    else if n == 62 then '+'
    else '/'
  }

  function SextetValue(c: char): (r: Option<nat>)
    ensures r.Some? ==> r.value < 64
  {
    if 'A' <= c <= 'Z' then Some((c - 'A') as nat)
    else if 'a' <= c <= 'z' then Some((c - 'a') as nat + 26)
    else if '0' <= c <= '9' then Some((c - '0') as nat + 52)
    else if c == '+' then Some(62)
    else if c == '/' then Some(63)
    else None
  }

  lemma SextetBack(n: nat)
    requires n < 64
    ensures SextetValue(SextetChar(n)) == Some(n) && SextetChar(n) !in "=\r\n"
  {
  }

  predicate IsBytes(s: string) { forall i :: 0 <= i < |s| ==> s[i] as int < 256 }

  function Group3(a: char, b: char, c: char): (s: string)
    requires a as int < 256 && b as int < 256 && c as int < 256
    ensures |s| == 4
  {
    var x, y, z := a as int, b as int, c as int;
    [SextetChar(x / 4), SextetChar(x % 4 * 16 + y / 16), SextetChar(y % 16 * 4 + z / 64), SextetChar(z % 64)]
  }

  function Encode64(s: string): string
    requires IsBytes(s)
    decreases |s|
  {
    if s == "" then ""
    else if |s| == 1 then Group3(s[0], 0 as char, 0 as char)[..2] + "=="
    else if |s| == 2 then Group3(s[0], s[1], 0 as char)[..3] + "="
    else Group3(s[0], s[1], s[2]) + Encode64(s[3..])
  }

  /** The first `n` of the three bytes four sextets stand for. */
  function Bytes3(a: nat, b: nat, c: nat, d: nat, n: nat): string
    requires a < 64 && b < 64 && c < 64 && d < 64 && n <= 3
  {
    [(a * 4 + b / 16) as char, (b % 16 * 16 + c / 4) as char, (c % 4 * 64 + d) as char][..n]
  }

  function DecodeGroups(s: string): Option<string>
    decreases |s|
  {
    if s == "" then Some("")
    else if |s| < 4 then None
    else
      var a :- SextetValue(s[0]);
      var b :- SextetValue(s[1]);
      if s[2] == '=' then (if s[2..] == "==" then Some(Bytes3(a, b, 0, 0, 1)) else None)
      else
        var c :- SextetValue(s[2]);
        if s[3] == '=' then (if |s| == 4 then Some(Bytes3(a, b, c, 0, 2)) else None)
        else
          var d :- SextetValue(s[3]);
          var rest :- DecodeGroups(s[4..]);
          Some(Bytes3(a, b, c, d, 3) + rest)
  }

  function StripNewlines(s: string): string {
    if s == "" then ""
    else (if s[0] == '\r' || s[0] == '\n' then "" else [s[0]]) + StripNewlines(s[1..])
  }

  /** base64.StdEncoding.DecodeString: line breaks are skipped. */
  function Decode64(s: string): Option<string> {
    DecodeGroups(StripNewlines(s))
  }

  lemma SextetsOf(x: nat, y: nat, z: nat)
    requires x < 256 && y < 256 && z < 256
    ensures var a, b, c, d := x / 4, x % 4 * 16 + y / 16, y % 16 * 4 + z / 64, z % 64;
            && a < 64 && b < 64 && c < 64
            && a * 4 + b / 16 == x && b % 16 * 16 + c / 4 == y && c % 4 * 64 + d == z
  {
  }

  lemma GroupBack(a: char, b: char, c: char)
    requires a as int < 256 && b as int < 256 && c as int < 256
    ensures var g := Group3(a, b, c);
            && (forall i :: 0 <= i < 4 ==> SextetValue(g[i]).Some? && g[i] !in "=\r\n")
            && Bytes3(SextetValue(g[0]).value, SextetValue(g[1]).value, SextetValue(g[2]).value,
                      SextetValue(g[3]).value, 3) == [a, b, c]
  {
    var x, y, z := a as int, b as int, c as int;
    SextetsOf(x, y, z);
    SextetBack(x / 4);
    SextetBack(x % 4 * 16 + y / 16);
    SextetBack(y % 16 * 4 + z / 64);
    SextetBack(z % 64);
  }

  predicate IsGroup(g: string) {
    |g| == 4 && forall i :: 0 <= i < 4 ==> SextetValue(g[i]).Some? && g[i] != '='
  }

  function BytesOf(g: string): (s: string)
    requires IsGroup(g)
    ensures |s| == 3
  {
    Bytes3(SextetValue(g[0]).value, SextetValue(g[1]).value, SextetValue(g[2]).value, SextetValue(g[3]).value, 3)
  }

  lemma GroupOf(a: char, b: char, c: char, g: string)
    requires a as int < 256 && b as int < 256 && c as int < 256 && g == Group3(a, b, c)
    ensures IsGroup(g) && BytesOf(g) == [a, b, c]
  {
    GroupBack(a, b, c);
  }

  lemma FewerBytes(a: nat, b: nat, c: nat, d: nat)
    requires a < 64 && b < 64 && c < 64 && d < 64
    ensures Bytes3(a, b, 0, 0, 1) == [Bytes3(a, b, c, d, 3)[0]]
    ensures Bytes3(a, b, c, 0, 2) == [Bytes3(a, b, c, d, 3)[0], Bytes3(a, b, c, d, 3)[1]]
  {
  }

  lemma PaddedOne(g: string)
    requires IsGroup(g)
    ensures DecodeGroups([g[0], g[1], '=', '=']) == Some([BytesOf(g)[0]])
  {
    var s := [g[0], g[1], '=', '='];
    assert s[2..] == "==";
    FewerBytes(SextetValue(g[0]).value, SextetValue(g[1]).value, SextetValue(g[2]).value, SextetValue(g[3]).value);
  }

  lemma PaddedTwo(g: string)
    requires IsGroup(g)
    ensures DecodeGroups([g[0], g[1], g[2], '=']) == Some([BytesOf(g)[0], BytesOf(g)[1]])
  {
    FewerBytes(SextetValue(g[0]).value, SextetValue(g[1]).value, SextetValue(g[2]).value, SextetValue(g[3]).value);
  }

  lemma GroupDecodes(g: string, rest: string, decoded: string)
    requires IsGroup(g) && DecodeGroups(rest) == Some(decoded)
    ensures DecodeGroups(g + rest) == Some(BytesOf(g) + decoded)
  {
    var e := g + rest;
    assert e[4..] == rest && e[0] == g[0] && e[1] == g[1] && e[2] == g[2] && e[3] == g[3];
  }

  lemma EncodeShort(s: string, a: char, b: char, g: string)
    requires IsBytes(s) && 1 <= |s| <= 2 && a == s[0] && b == (if |s| == 2 then s[1] else 0 as char)
    requires g == Group3(a, b, 0 as char)
    ensures Encode64(s) == if |s| == 1 then [g[0], g[1], '=', '='] else [g[0], g[1], g[2], '=']
  {
  }

  lemma LongBack(s: string, g: string, rest: string)
    requires IsBytes(s) && |s| >= 3 && g == Group3(s[0], s[1], s[2]) && DecodeGroups(rest) == Some(s[3..])
    ensures DecodeGroups(g + rest) == Some(s)
  {
    GroupOf(s[0], s[1], s[2], g);
    GroupDecodes(g, rest, s[3..]);
    assert [s[0], s[1], s[2]] + s[3..] == s;
  }

  lemma ShortBack(s: string, b: char, g: string)
    requires IsBytes(s) && 1 <= |s| <= 2 && b == (if |s| == 2 then s[1] else 0 as char)
    requires g == Group3(s[0], b, 0 as char)
    ensures DecodeGroups(Encode64(s)) == Some(s)
  {
    EncodeShort(s, s[0], b, g);
    GroupOf(s[0], b, 0 as char, g);
    if |s| == 1 {
      PaddedOne(g);
      assert [s[0]] == s;
    } else {
      PaddedTwo(g);
      assert [s[0], s[1]] == s;
    }
  }

  lemma {:induction false} GroupsBack(s: string)
    requires IsBytes(s)
    ensures DecodeGroups(Encode64(s)) == Some(s)
    decreases |s|
  {
    if s == "" {
      assert Encode64(s) == "";
    } else if |s| < 3 {
      var b := if |s| == 2 then s[1] else 0 as char;
      ShortBack(s, b, Group3(s[0], b, 0 as char));
    } else {
      GroupsBack(s[3..]);
      LongBack(s, Group3(s[0], s[1], s[2]), Encode64(s[3..]));
    }
  }

  lemma {:induction false} StripNothing(s: string)
    requires forall i :: 0 <= i < |s| ==> s[i] != '\r' && s[i] != '\n'
    ensures StripNewlines(s) == s
    decreases |s|
  {
    if s != "" { StripNothing(s[1..]); }
  }

  lemma {:induction false} EncodedHasNoNewline(s: string)
    requires IsBytes(s)
    ensures forall i :: 0 <= i < |Encode64(s)| ==> Encode64(s)[i] != '\r' && Encode64(s)[i] != '\n'
    decreases |s|
  {
    if |s| == 1 {
      GroupBack(s[0], 0 as char, 0 as char);
    } else if |s| == 2 {
      GroupBack(s[0], s[1], 0 as char);
    } else if |s| >= 3 {
      GroupBack(s[0], s[1], s[2]);
      EncodedHasNoNewline(s[3..]);
    }
  }

  /** Decoding inverts encoding on every byte string. */
  lemma Base64RoundTrip(s: string)
    requires IsBytes(s)
    ensures Decode64(Encode64(s)) == Some(s)
  {
    EncodedHasNoNewline(s);
    StripNothing(Encode64(s));
    GroupsBack(s);
  }

  // ---------------------------------------------------------------- cursors

  function EncodeCursor(t: Time, id: Uuid): string
    requires IsTime(t)
  {
    FormatIsBytes(t, id);
    Encode64(FormatTime(t) + "|" + FormatUuid(id))
  }

  function DecodeCursor(cursor: string): Result<(Time, Uuid), CursorError> {
    match Decode64(cursor)
    case None => Err(InvalidCursor)
    case Some(raw) =>
      var (first, second) := SplitOnce(raw, '|');
      if second.None? then
        // Cursors of the older form are only a timestamp.
        (match ParseTime(raw) case None => Err(InvalidTime) case Some(t) => Ok((t, NIL)))
      else match ParseTime(first)
           case None => Err(InvalidTime)
           case Some(t) =>
             match ParseUuid(second.value)
             case None => Err(InvalidId)
             case Some(id) => Ok((t, id))
  }

  /** Whatever string is sent as a cursor, what is read from it is a time on the calendar and a 128-bit id. */
  lemma DecodedIsValid(cursor: string)
    requires DecodeCursor(cursor).Ok?
    ensures var (t, id) := DecodeCursor(cursor).value; IsTime(t) && t.year <= 9999 && IsUuid(id)
  {
    var raw := Decode64(cursor).value;
    var (first, second) := SplitOnce(raw, '|');
    Pow10();
    PowPositive(16, 32);
    ParsedYear(if second.None? then raw else first);
    if second.Some? { ParsedUuid(second.value); }
  }

  lemma ParsedYear(s: string)
    requires ParseTime(s).Some?
    ensures IsTime(ParseTime(s).value) && ParseTime(s).value.year < 10000
  {
    Pow10();
    ValueBound(s[..4], 10);
  }

  lemma ParsedUuid(s: string)
    requires ParseUuid(s).Some?
    ensures IsUuid(ParseUuid(s).value)
  {
    ValueBound(s[..8] + s[9..13] + s[14..18] + s[19..23] + s[24..], 16);
  }

  lemma {:induction false} PowPositive(base: nat, n: nat)
    requires base > 0
    ensures Pow(base, n) > 0
  {
    if n > 0 { PowPositive(base, n - 1); }
  }

  lemma {:induction false} ValueBound(s: string, base: nat)
    requires base > 0 && Value(s, base).Some?
    ensures Value(s, base).value < Pow(base, |s|)
    decreases |s|
  {
    if s != "" {
      ValueBound(s[..|s| - 1], base);
      var high := Value(s[..|s| - 1], base).value;
      NextDigit(high, base, Pow(base, |s| - 1), DigitValue(s[|s| - 1]).value);
    }
  }

  lemma NextDigit(high: nat, base: nat, bound: nat, low: nat)
    requires high < bound && low < base
    ensures high * base + low < base * bound
  {
    assert (high + 1) * base <= bound * base;
  }

  /** Printable bytes other than the bar: what times and ids are made of. */
  predicate IsPlain(s: string) {
    forall i :: 0 <= i < |s| ==> s[i] as int < 256 && s[i] != '|'
  }

  lemma PlainConcat(a: string, b: string)
    requires IsPlain(a) && IsPlain(b)
    ensures IsPlain(a + b)
  {
  }

  lemma {:induction false} DigitsPlain(n: nat, base: nat, width: nat)
    requires 2 <= base <= 16
    ensures IsPlain(Digits(n, base, width))
    decreases width
  {
    if width > 0 { DigitsPlain(n / base, base, width - 1); }
  }

  lemma TimePlain(t: Time)
    requires IsTime(t)
    ensures IsPlain(FormatTime(t))
  {
    DigitsPlain(t.year, 10, 4);
    DecimalIsDigits(t.year);
    DigitsPlain(t.month, 10, 2);
    DigitsPlain(t.day, 10, 2);
    ClockPlain(t);
    PlainConcat("T", FormatClock(t));
    PlainConcat(Digits(t.day, 10, 2), "T" + FormatClock(t));
    PlainConcat("-", Digits(t.day, 10, 2) + ("T" + FormatClock(t)));
    PlainConcat(Digits(t.month, 10, 2), "-" + (Digits(t.day, 10, 2) + ("T" + FormatClock(t))));
    PlainConcat("-", Digits(t.month, 10, 2) + ("-" + (Digits(t.day, 10, 2) + ("T" + FormatClock(t)))));
  }

  lemma FractionPlain(nanos: nat)
    ensures IsPlain(Fraction(nanos))
  {
    DigitsPlain(nanos, 10, 9);
    TrimPlain(Digits(nanos, 10, 9));
    PlainConcat(".", TrimZeros(Digits(nanos, 10, 9)));
  }

  lemma {:induction false} TrimPlain(s: string)
    requires IsPlain(s)
    ensures IsPlain(TrimZeros(s))
    decreases |s|
  {
    if s != "" { TrimPlain(s[..|s| - 1]); }
  }

  lemma ZonePlain(offset: int)
    ensures IsPlain(Zone(offset))
  {
    var hours, minutes := Digits(Abs(offset) / 60, 10, 2), Digits(Abs(offset) % 60, 10, 2);
    DigitsPlain(Abs(offset) / 60, 10, 2);
    DigitsPlain(Abs(offset) % 60, 10, 2);
    PlainConcat(":", minutes);
    PlainConcat(hours, ":" + minutes);
  }

  lemma ClockPlain(t: Time)
    requires IsTime(t)
    ensures IsPlain(FormatClock(t))
  {
    DigitsPlain(t.hour, 10, 2);
    DigitsPlain(t.minute, 10, 2);
    DigitsPlain(t.second, 10, 2);
    var fraction, zone := Fraction(t.nanos), Zone(t.offset);
    FractionPlain(t.nanos);
    ZonePlain(t.offset);
    PlainConcat(fraction, zone);
    PlainConcat(Digits(t.second, 10, 2), fraction + zone);
    PlainConcat(":", Digits(t.second, 10, 2) + (fraction + zone));
    PlainConcat(Digits(t.minute, 10, 2), ":" + (Digits(t.second, 10, 2) + (fraction + zone)));
    PlainConcat(":", Digits(t.minute, 10, 2) + (":" + (Digits(t.second, 10, 2) + (fraction + zone))));
  }

  lemma FormatIsBytes(t: Time, id: Uuid)
    requires IsTime(t)
    ensures IsBytes(FormatTime(t) + "|" + FormatUuid(id))
  {
    TimePlain(t);
    DigitsPlain(id, 16, 32);
    DashedPlain(Digits(id, 16, 32));
    PlainBytes(FormatTime(t), FormatUuid(id));
  }

  lemma PlainBytes(a: string, b: string)
    requires IsPlain(a) && IsPlain(b)
    ensures IsBytes(a + "|" + b)
  {
  }

  lemma DashedPlain(hex: string)
    requires |hex| == 32 && IsPlain(hex)
    ensures IsPlain(Dashed(hex))
  {
  }

  /**
   * A cursor decodes to the time and id it was made from, for every time and every UUID, exactly when
   * the year has four digits; beyond that decoding reports an invalid time.
   */
  lemma CursorRoundTrip(t: Time, id: Uuid)
    requires IsTime(t) && IsUuid(id)
    ensures DecodeCursor(EncodeCursor(t, id)) == Ok((t, id)) <==> t.year <= 9999
    ensures t.year > 9999 ==> DecodeCursor(EncodeCursor(t, id)) == Err(InvalidTime)
  {
    FormatIsBytes(t, id);
    TimePlain(t);
    Base64RoundTrip(FormatTime(t) + "|" + FormatUuid(id));
    SplitOnceAt(FormatTime(t), FormatUuid(id), '|');
    UuidBack(id);
    if t.year <= 9999 { TimeBack(t); } else { LongYearFails(t); }
  }

  /** An older cursor, only a timestamp, decodes to that time and the nil id. */
  lemma LegacyCursorDecodes(t: Time)
    requires IsTime(t) && t.year <= 9999
    ensures IsBytes(FormatTime(t)) && DecodeCursor(Encode64(FormatTime(t))) == Ok((t, NIL))
  {
    TimePlain(t);
    Base64RoundTrip(FormatTime(t));
    SplitOnceNowhere(FormatTime(t), '|');
    TimeBack(t);
  }
}
