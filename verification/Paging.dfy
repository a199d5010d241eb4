/**
 * Keyset pagination: internal/services/issue/service.go (List), internal/services/comment/service.go (list) and
 * internal/services/activity/service.go (ListByRepo, ListByUser, queryEvents).
 *
 * The services build a query step by step, with numbered arguments; here the query is a list of conditions that
 * name arguments by number, and `Answer` is what the database returns for it.
 */
module Paging {
  import opened Common
  import opened Cursor

  // ---------------------------------------------------------------- rows and order

  /**
   * A row of a listed table: `at` is the instant stored in its created_at column, `createdAt` the time a scan of
   * that column yields, and `refs` its id-valued columns.
   */
  datatype Row = Row(id: Uuid, at: int, createdAt: Time, refs: map<string, Uuid>, status: string)

  /** What a listing is ordered by. */
  datatype Key = Key(at: int, id: Uuid)

  datatype Direction = Asc | Desc

  function DaysBeforeMonth(year: nat, month: nat): nat {
    if month <= 1 then 0 else DaysBeforeMonth(year, month - 1) + DaysIn(month - 1, year)
  }

  /** Days before January 1st, in the Gregorian calendar. */
  function YearStart(year: nat): nat {
    365 * year + (year + 3) / 4 - (year + 99) / 100 + (year + 399) / 400
  }

  /** The instant a time denotes, in microseconds, the resolution of a stored timestamp. */
  function Instant(t: Time): int {
    var days := YearStart(t.year) + DaysBeforeMonth(t.year, t.month) + t.day;
    (((days * 24 + t.hour) * 60 + t.minute - t.offset) * 60 + t.second) * 1_000_000 + t.nanos / 1000
  }

  function Midnight(year: nat, month: nat, day: nat): Time {
    Time(year, month, day, 0, 0, 0, 0, 0)
  }

  const DAY: int := 86_400_000_000

  /** Instants follow the calendar: a day is a day later than the one before, within a month, */
  lemma InstantOfNextDay(year: nat, month: nat, day: nat)
    ensures Instant(Midnight(year, month, day + 1)) == Instant(Midnight(year, month, day)) + DAY
  {
    MidnightIs(year, month, day);
    MidnightIs(year, month, day + 1);
  }

  /** from the last of a month to the first of the next, */
  lemma InstantOfNextMonth(year: nat, month: nat)
    requires 1 <= month < 12
    ensures var leap := year % 4 == 0 && (year % 100 != 0 || year % 400 == 0);
            var last := if month == 2 then (if leap then 29 else 28)
                        else if month == 4 || month == 6 || month == 9 || month == 11 then 30 else 31;
            Instant(Midnight(year, month + 1, 1)) == Instant(Midnight(year, month, last)) + DAY
  {
    var last := DaysIn(month, year);
    assert DaysBeforeMonth(year, month + 1) == DaysBeforeMonth(year, month) + last;
    MidnightIs(year, month, last);
    MidnightIs(year, month + 1, 1);
  }

  /** and from New Year's Eve to New Year's Day. */
  lemma InstantOfNextYear(year: nat)
    ensures Instant(Midnight(year + 1, 1, 1)) == Instant(Midnight(year, 12, 31)) + DAY
  {
    YearLength(year);
    YearsAdd(year);
    MidnightIs(year, 12, 31);
    MidnightIs(year + 1, 1, 1);
  }

  lemma YearLength(year: nat)
    ensures DaysBeforeMonth(year, 12) + 31 == if IsLeap(year) then 366 else 365
  {
    assert DaysBeforeMonth(year, 2) == 31;
    assert DaysBeforeMonth(year, 3) == 31 + DaysIn(2, year);
    assert DaysBeforeMonth(year, 4) == DaysBeforeMonth(year, 3) + 31;
    assert DaysBeforeMonth(year, 5) == DaysBeforeMonth(year, 4) + 30;
    assert DaysBeforeMonth(year, 6) == DaysBeforeMonth(year, 5) + 31;
    assert DaysBeforeMonth(year, 7) == DaysBeforeMonth(year, 6) + 30;
    assert DaysBeforeMonth(year, 8) == DaysBeforeMonth(year, 7) + 31;
    assert DaysBeforeMonth(year, 9) == DaysBeforeMonth(year, 8) + 31;
    assert DaysBeforeMonth(year, 10) == DaysBeforeMonth(year, 9) + 30;
    assert DaysBeforeMonth(year, 11) == DaysBeforeMonth(year, 10) + 31;
    assert DaysBeforeMonth(year, 12) == DaysBeforeMonth(year, 11) + 30;
  }

  lemma YearsAdd(year: nat)
    ensures YearStart(year + 1) == YearStart(year) + if IsLeap(year) then 366 else 365
  {
    assert (year + 4) / 4 == (year + 3) / 4 + if year % 4 == 0 then 1 else 0;
    assert (year + 100) / 100 == (year + 99) / 100 + if year % 100 == 0 then 1 else 0;
    assert (year + 400) / 400 == (year + 399) / 400 + if year % 400 == 0 then 1 else 0;
    Multiples(year);
  }

  lemma Multiples(n: nat)
    ensures (n % 400 == 0 ==> n % 100 == 0) && (n % 100 == 0 ==> n % 4 == 0)
  {
    if n % 400 == 0 { Hundreds(n, 4 * (n / 400)); }
    if n % 100 == 0 { Fours(n, 25 * (n / 100)); }
  }

  lemma Hundreds(n: nat, k: nat)
    requires n == 100 * k
    ensures n % 100 == 0
  {
  }

  lemma Fours(n: nat, k: nat)
    requires n == 4 * k
    ensures n % 4 == 0
  {
  }

  lemma MidnightIs(year: nat, month: nat, day: nat)
    ensures Instant(Midnight(year, month, day)) == (YearStart(year) + DaysBeforeMonth(year, month) + day) * DAY
  {
  }

  /** Within the day they follow the clock, and an offset is subtracted. */
  lemma InstantIsClock(t: Time)
    ensures Instant(t) == Instant(Midnight(t.year, t.month, t.day))
                          + t.hour * 3_600_000_000 + (t.minute - t.offset) * 60_000_000 + t.second * 1_000_000
                          + t.nanos / 1000
  {
  }

  function KeyOf(r: Row): Key { Key(r.at, r.id) }

  predicate Before(a: Key, b: Key) { a.at < b.at || (a.at == b.at && a.id < b.id) }

  predicate Precedes(dir: Direction, a: Key, b: Key) {
    if dir.Asc? then Before(a, b) else Before(b, a)
  }

  ghost predicate Ordered(dir: Direction, rows: seq<Row>) {
    forall i, j :: 0 <= i < j < |rows| ==> Precedes(dir, KeyOf(rows[i]), KeyOf(rows[j]))
  }

  /** Ids are a primary key and never nil; times denote the stored instant and have an RFC 3339 form. */
  ghost predicate IsTable(table: seq<Row>) {
    && (forall i, j :: 0 <= i < j < |table| ==> table[i].id != table[j].id)
    && AllStored(table)
  }

  predicate IsStored(r: Row) {
    Instant(r.createdAt) == r.at && IsTime(r.createdAt) && r.createdAt.year <= 9999 && IsUuid(r.id) && r.id != NIL
  }

  // ---------------------------------------------------------------- queries

  datatype Arg = IdArg(id: Uuid) | TextArg(text: string) | TimeArg(time: Time) | IntArg(n: int)

  /**
   * One conjunct of the WHERE clause; numbers are those of the `$n` in its text. The comparisons point
   * the way the listing runs, `<` when it descends and `>` when it ascends.
   */
  datatype Condition =
    | RefIs(column: string, n: nat)
    | StatusIs(n: nat)
    | TimePast(n: nat)
    | TimeOrIdPast(time: nat, sameTime: nat, id: nat)
    | RowPast(time: nat, id: nat)

  datatype Query = Query(where: seq<Condition>, order: Direction, limit: nat)

  predicate HasId(args: seq<Arg>, n: nat) { 1 <= n <= |args| && args[n - 1].IdArg? }
  predicate HasTime(args: seq<Arg>, n: nat) { 1 <= n <= |args| && args[n - 1].TimeArg? }
  predicate HasCount(args: seq<Arg>, n: nat) { 1 <= n <= |args| && args[n - 1].IntArg? && args[n - 1].n >= 0 }
  predicate HasText(args: seq<Arg>, n: nat) { 1 <= n <= |args| && args[n - 1].TextArg? }

  /** Every placeholder has an argument of its type. */
  predicate Binds(c: Condition, args: seq<Arg>) {
    match c
    case RefIs(_, n) => HasId(args, n)
    case StatusIs(n) => HasText(args, n)
    case TimePast(n) => HasTime(args, n)
    case TimeOrIdPast(t, u, n) => HasTime(args, t) && HasTime(args, u) && HasId(args, n)
    case RowPast(t, n) => HasTime(args, t) && HasId(args, n)
  }

  predicate BindsAll(where: seq<Condition>, args: seq<Arg>) {
    forall i :: 0 <= i < |where| ==> Binds(where[i], args)
  }

  predicate Past(dir: Direction, a: int, b: int) { if dir.Asc? then a > b else a < b }

  predicate Holds(c: Condition, dir: Direction, args: seq<Arg>, r: Row)
    requires Binds(c, args)
  {
    match c
    case RefIs(column, n) => column in r.refs && r.refs[column] == args[n - 1].id
    case StatusIs(n) => r.status == args[n - 1].text
    case TimePast(n) => Past(dir, r.at, Instant(args[n - 1].time))
    case TimeOrIdPast(t, u, n) =>
      || Past(dir, r.at, Instant(args[t - 1].time))
      || (r.at == Instant(args[u - 1].time) && Past(dir, r.id, args[n - 1].id))
    case RowPast(t, n) =>
      Precedes(dir, Key(Instant(args[t - 1].time), args[n - 1].id), KeyOf(r))
  }

  predicate HoldsAll(where: seq<Condition>, dir: Direction, args: seq<Arg>, r: Row)
    requires BindsAll(where, args)
  {
    forall i :: 0 <= i < |where| ==> Holds(where[i], dir, args, r)
  }

  function Filter(rows: seq<Row>, keep: Row -> bool): seq<Row> {
    if rows == [] then []
    else (if keep(rows[0]) then [rows[0]] else []) + Filter(rows[1..], keep)
  }

  function Insert(dir: Direction, r: Row, rows: seq<Row>): seq<Row> {
    if rows == [] || Precedes(dir, KeyOf(r), KeyOf(rows[0])) then [r] + rows
    else [rows[0]] + Insert(dir, r, rows[1..])
  }

  function Sort(dir: Direction, rows: seq<Row>): seq<Row> {
    if rows == [] then [] else Insert(dir, rows[0], Sort(dir, rows[1..]))
  }

  function Take(rows: seq<Row>, n: nat): seq<Row> {
    if |rows| <= n then rows else rows[..n]
  }

  /** The rows of a table that meet a condition, in listing order. */
  function Listing(table: seq<Row>, keep: Row -> bool, dir: Direction): seq<Row> {
    Sort(dir, Filter(table, keep))
  }

  /** SELECT … WHERE … ORDER BY created_at, id LIMIT. */
  function Answer(table: seq<Row>, q: Query, args: seq<Arg>): seq<Row>
    requires BindsAll(q.where, args) && HasCount(args, q.limit)
  {
    Take(Listing(table, r => HoldsAll(q.where, q.order, args, r), q.order), args[q.limit - 1].n)
  }

  lemma {:induction false} FilterMembers(rows: seq<Row>, keep: Row -> bool)
    ensures forall r :: r in Filter(rows, keep) <==> r in rows && keep(r)
  {
    if rows != [] {
      FilterMembers(rows[1..], keep);
      assert rows == [rows[0]] + rows[1..];
    }
  }

  ghost predicate DistinctIds(rows: seq<Row>) {
    forall i, j :: 0 <= i < j < |rows| ==> rows[i].id != rows[j].id
  }

  lemma {:induction false} FilterDistinct(rows: seq<Row>, keep: Row -> bool)
    requires DistinctIds(rows)
    ensures DistinctIds(Filter(rows, keep))
  {
    if rows != [] {
      var tail := Filter(rows[1..], keep);
      FilterDistinct(rows[1..], keep);
      FilterMembers(rows[1..], keep);
      assert forall j :: 0 <= j < |tail| ==> tail[j] in rows[1..] && tail[j].id != rows[0].id;
    }
  }

  lemma {:induction false} InsertMembers(dir: Direction, r: Row, rows: seq<Row>)
    ensures forall x :: x in Insert(dir, r, rows) <==> x == r || x in rows
  {
    if rows != [] && !Precedes(dir, KeyOf(r), KeyOf(rows[0])) {
      InsertMembers(dir, r, rows[1..]);
      assert rows == [rows[0]] + rows[1..];
    }
  }

  lemma {:induction false} InsertOrdered(dir: Direction, r: Row, rows: seq<Row>)
    requires Ordered(dir, rows) && forall i :: 0 <= i < |rows| ==> rows[i].id != r.id
    ensures Ordered(dir, Insert(dir, r, rows))
  {
    if rows == [] {
    } else if Precedes(dir, KeyOf(r), KeyOf(rows[0])) {
      assert forall i :: 0 <= i < |rows| ==> Precedes(dir, KeyOf(r), KeyOf(rows[i]));
    } else {
      InsertOrdered(dir, r, rows[1..]);
      InsertMembers(dir, r, rows[1..]);
      var tail := Insert(dir, r, rows[1..]);
      forall j | 0 <= j < |tail| ensures Precedes(dir, KeyOf(rows[0]), KeyOf(tail[j])) {
        assert tail[j] in tail;
      }
    }
  }

  lemma {:induction false} SortFacts(dir: Direction, rows: seq<Row>)
    requires DistinctIds(rows)
    ensures Ordered(dir, Sort(dir, rows))
    ensures forall r :: r in Sort(dir, rows) <==> r in rows
  {
    if rows != [] {
      SortFacts(dir, rows[1..]);
      var tail := Sort(dir, rows[1..]);
      assert forall j :: 0 <= j < |tail| ==> tail[j] in rows[1..];
      InsertOrdered(dir, rows[0], tail);
      InsertMembers(dir, rows[0], tail);
      assert rows == [rows[0]] + rows[1..];
    }
  }

  /** A listing is in strict order and holds exactly the rows that meet the condition. */
  lemma ListingFacts(table: seq<Row>, keep: Row -> bool, dir: Direction)
    requires DistinctIds(table)
    ensures Ordered(dir, Listing(table, keep, dir))
    ensures forall r :: r in Listing(table, keep, dir) <==> r in table && keep(r)
  {
    FilterDistinct(table, keep);
    FilterMembers(table, keep);
    SortFacts(dir, Filter(table, keep));
  }

  /** Order and contents determine a listing. */
  lemma {:induction false} OrderedUnique(dir: Direction, a: seq<Row>, b: seq<Row>)
    requires Ordered(dir, a) && Ordered(dir, b)
    requires forall r :: r in a <==> r in b
    ensures a == b
    decreases |a|
  {
    if |b| > 0 { assert b[0] in a; }
    if a != [] {
      assert a[0] in b;
      assert a[0] == b[0];
      assert a == [a[0]] + a[1..] && b == [b[0]] + b[1..];
      TailMembers(dir, a);
      TailMembers(dir, b);
      OrderedUnique(dir, a[1..], b[1..]);
    }
  }

  lemma TailMembers(dir: Direction, a: seq<Row>)
    requires Ordered(dir, a) && a != []
    ensures forall r :: r in a[1..] <==> r in a && r != a[0]
  {
    assert a == [a[0]] + a[1..];
    assert forall i :: 0 < i < |a| ==> a[i] != a[0];
  }

  lemma {:induction false} FilterSame(rows: seq<Row>, f: Row -> bool, g: Row -> bool)
    requires forall i :: 0 <= i < |rows| ==> f(rows[i]) == g(rows[i])
    ensures Filter(rows, f) == Filter(rows, g)
  {
    if rows != [] { FilterSame(rows[1..], f, g); }
  }

  // ---------------------------------------------------------------- pages

  /** Where a page starts: at the beginning, past a key, or (older cursors) past an instant. */
  datatype Place = Start | PastKey(key: Key) | PastTime(at: int)

  predicate IsPast(dir: Direction, place: Place, k: Key) {
    match place
    case Start => true
    case PastKey(key) => Precedes(dir, key, k)
    case PastTime(at) => Past(dir, k.at, at)
  }

  datatype Page = Page(rows: seq<Row>, next: string)

  /** Issues and comments treat a cursor with the nil id as the older form; activity does not. */
  function PlaceOf(cursor: string, olderForm: bool): Result<Place, CursorError> {
    if cursor == "" then Ok(Start)
    else match DecodeCursor(cursor)
         case Err(e) => Err(e)
         case Ok((t, id)) =>
           if id == NIL && olderForm then Ok(PastTime(Instant(t))) else Ok(PastKey(Key(Instant(t), id)))
  }

  /** The rows of the whole listing that lie past `place`, in order. */
  function Remaining(table: seq<Row>, keep: Row -> bool, dir: Direction, place: Place): seq<Row> {
    Listing(table, r => keep(r) && IsPast(dir, place, KeyOf(r)), dir)
  }

  ghost predicate AllStored(rows: seq<Row>) {
    forall i :: 0 <= i < |rows| ==> IsStored(rows[i])
  }

  function PageOf(remaining: seq<Row>, limit: nat): Page
    requires limit > 0 && AllStored(remaining)
  {
    Page(Take(remaining, limit),
         if |remaining| <= limit then "" else EncodeCursor(remaining[limit - 1].createdAt, remaining[limit - 1].id))
  }

  /** How a service reads its cursors. */
  type Places = string -> Result<Place, CursorError>

  const EITHER_FORM: Places := cursor => PlaceOf(cursor, true)
  const ONE_FORM: Places := cursor => PlaceOf(cursor, false)

  /** Reading a cursor made from a row gives the place past that row. */
  ghost predicate Faithful(placeOf: Places) {
    && placeOf("") == Ok(Start)
    && forall r: Row :: IsStored(r) ==>
         EncodeCursor(r.createdAt, r.id) != "" && placeOf(EncodeCursor(r.createdAt, r.id)) == Ok(PastKey(KeyOf(r)))
  }

  /** What a listing promises its caller: the first `limit` rows past the cursor, and a cursor if more remain. */
  function Listed(table: seq<Row>, keep: Row -> bool, dir: Direction, placeOf: Places, cursor: string, limit: nat):
    Result<Page, CursorError>
    requires limit > 0 && IsTable(table)
  {
    match placeOf(cursor)
    case Err(e) => Err(e)
    case Ok(place) =>
      RemainingStored(table, keep, dir, place);
      Ok(PageOf(Remaining(table, keep, dir, place), limit))
  }

  lemma RemainingStored(table: seq<Row>, keep: Row -> bool, dir: Direction, place: Place)
    requires IsTable(table)
    ensures AllStored(Remaining(table, keep, dir, place))
  {
    ListingStored(table, r => keep(r) && IsPast(dir, place, KeyOf(r)), dir);
  }

  lemma ListingStored(table: seq<Row>, keep: Row -> bool, dir: Direction)
    requires IsTable(table)
    ensures AllStored(Listing(table, keep, dir))
  {
    ListingFacts(table, keep, dir);
    var all := Listing(table, keep, dir);
    assert forall i :: 0 <= i < |all| ==> all[i] in table;
  }

  /** The loop over the result rows and the truncation, the same text in all three services. */
  method CollectPage(answer: seq<Row>, limit: nat) returns (page: Page)
    requires limit > 0 && AllStored(answer)
    ensures page == PageOf(answer, limit)
  {
    var rows := CollectRows(answer);
    var next := "";
    if |rows| > limit {
      var last := rows[limit - 1];
      rows := rows[..limit];
      next := EncodeCursor(last.createdAt, last.id);
    }
    page := Page(rows, next);
  }

  /** for rows.Next() { … append … }. */
  method CollectRows(answer: seq<Row>) returns (rows: seq<Row>)
    ensures rows == answer
  {
    rows := [];
    var read := 0;
    while read < |answer|
      invariant 0 <= read <= |answer| && rows == answer[..read]
    {
      rows := rows + [answer[read]];
      read := read + 1;
    }
  }

  /** Asking for one row too many is enough to know whether more remain. */
  lemma OneMoreIsEnough(remaining: seq<Row>, limit: nat)
    requires limit > 0 && AllStored(remaining)
    ensures AllStored(Take(remaining, limit + 1))
    ensures PageOf(Take(remaining, limit + 1), limit) == PageOf(remaining, limit)
  {
    var some := Take(remaining, limit + 1);
    assert Take(some, limit) == Take(remaining, limit);
    assert |some| > limit ==> some[limit - 1] == remaining[limit - 1];
  }

  // ---------------------------------------------------------------- what a page is, on the rows' own fields

  /** The order a listing shows rows in. */
  predicate Comes(newestFirst: bool, a: Row, b: Row) {
    if newestFirst then a.at > b.at || (a.at == b.at && a.id > b.id) else a.at < b.at || (a.at == b.at && a.id < b.id)
  }

  /** The row comes after the place the cursor was made from; an older cursor has a time only. */
  predicate AfterCursor(newestFirst: bool, olderForm: bool, cursor: string, r: Row) {
    cursor == "" ||
    match DecodeCursor(cursor)
    case Err(_) => false
    case Ok((time, id)) =>
      if id == NIL && olderForm then (if newestFirst then r.at < Instant(time) else r.at > Instant(time))
      else if newestFirst then r.at < Instant(time) || (r.at == Instant(time) && r.id < id)
      else r.at > Instant(time) || (r.at == Instant(time) && r.id > id)
  }

  /** The first `limit` of the rows that qualify, in order, and a cursor of the last one exactly if there are more. */
  ghost predicate IsPageFor(page: Page, table: seq<Row>, qualifies: Row -> bool, newestFirst: bool, limit: nat) {
    && |page.rows| <= limit
    && (forall i, j :: 0 <= i < j < |page.rows| ==> Comes(newestFirst, page.rows[i], page.rows[j]))
    && (forall r :: r in page.rows ==> r in table && qualifies(r))
    && if forall r :: r in table && qualifies(r) ==> r in page.rows then page.next == ""
       else
         && |page.rows| == limit > 0 && IsStored(page.rows[limit - 1])
         && page.next == EncodeCursor(page.rows[limit - 1].createdAt, page.rows[limit - 1].id)
         && forall r :: r in table && qualifies(r) && r !in page.rows ==> Comes(newestFirst, page.rows[limit - 1], r)
  }

  lemma CutIsPage(page: Page, all: seq<Row>, table: seq<Row>, qualifies: Row -> bool, dir: Direction, limit: nat)
    requires limit > 0 && AllStored(all) && page == PageOf(all, limit) && Ordered(dir, all)
    requires forall r :: r in all <==> r in table && qualifies(r)
    ensures IsPageFor(page, table, qualifies, dir.Desc?, limit)
  {
    var rows := page.rows;
    forall i, j | 0 <= i < j < |rows| ensures Comes(dir.Desc?, rows[i], rows[j]) {
      assert Precedes(dir, KeyOf(all[i]), KeyOf(all[j]));
    }
    if |all| > limit {
      var more := all[limit];
      assert more in all;
      NotAgain(dir, all, limit);
      forall k | 0 <= k < limit ensures all[k] in rows { assert rows[k] == all[k]; }
      forall r | r in all && r !in rows ensures Comes(dir.Desc?, rows[limit - 1], r) {
        var k :| 0 <= k < |all| && all[k] == r;
        assert Precedes(dir, KeyOf(all[limit - 1]), KeyOf(all[k]));
      }
    }
  }

  lemma NotAgain(dir: Direction, all: seq<Row>, k: nat)
    requires Ordered(dir, all) && k < |all|
    ensures all[k] !in all[..k]
  {
    forall i | 0 <= i < k ensures all[i] != all[k] { assert Precedes(dir, KeyOf(all[i]), KeyOf(all[k])); }
  }

  /** What the services return is such a page. */
  lemma ListedIsPage(table: seq<Row>, keep: Row -> bool, dir: Direction, placeOf: Places, olderForm: bool,
                     cursor: string, limit: nat, qualifies: Row -> bool)
    requires limit > 0 && IsTable(table) && placeOf(cursor) == PlaceOf(cursor, olderForm)
    requires forall r :: qualifies(r) <==> keep(r) && AfterCursor(dir.Desc?, olderForm, cursor, r)
    ensures var r := Listed(table, keep, dir, placeOf, cursor, limit);
            && (r.Err? <==> cursor != "" && DecodeCursor(cursor).Err?)
            && (r.Ok? ==> IsPageFor(r.value, table, qualifies, dir.Desc?, limit))
  {
    var place := PlaceOf(cursor, olderForm);
    if place.Ok? {
      var all := Remaining(table, keep, dir, place.value);
      ListingFacts(table, r => keep(r) && IsPast(dir, place.value, KeyOf(r)), dir);
      RemainingStored(table, keep, dir, place.value);
      CutIsPage(PageOf(all, limit), all, table, qualifies, dir, limit);
    }
  }

  // ---------------------------------------------------------------- building the query

  /** The conditions so far select exactly the rows of the table that `keep` accepts. */
  ghost predicate Selects(table: seq<Row>, where: seq<Condition>, dir: Direction, args: seq<Arg>, keep: Row -> bool) {
    && BindsAll(where, args)
    && forall i :: 0 <= i < |table| ==> HoldsAll(where, dir, args, table[i]) == keep(table[i])
  }

  /** Arguments are only appended, so earlier conditions keep their meaning. */
  lemma HoldsWithMore(where: seq<Condition>, dir: Direction, args: seq<Arg>, more: seq<Arg>, r: Row)
    requires BindsAll(where, args)
    ensures BindsAll(where, args + more)
    ensures HoldsAll(where, dir, args + more, r) == HoldsAll(where, dir, args, r)
  {
    forall i | 0 <= i < |where|
      ensures Binds(where[i], args + more)
      ensures Holds(where[i], dir, args + more, r) == Holds(where[i], dir, args, r)
    {
      assert Binds(where[i], args);
    }
  }

  lemma HoldsSnoc(where: seq<Condition>, c: Condition, dir: Direction, args: seq<Arg>, r: Row)
    requires BindsAll(where, args) && Binds(c, args)
    ensures BindsAll(where + [c], args)
    ensures HoldsAll(where + [c], dir, args, r) == (HoldsAll(where, dir, args, r) && Holds(c, dir, args, r))
  {
    var longer := where + [c];
    assert longer[|where|] == c;
    assert forall i :: 0 <= i < |where| ==> longer[i] == where[i];
  }

  lemma AddCondition(table: seq<Row>, where: seq<Condition>, dir: Direction, args: seq<Arg>, keep: Row -> bool,
                     c: Condition, more: seq<Arg>, added: Row -> bool, both: Row -> bool)
    requires Selects(table, where, dir, args, keep) && Binds(c, args + more)
    requires forall i :: 0 <= i < |table| ==> Holds(c, dir, args + more, table[i]) == added(table[i])
    requires forall i :: 0 <= i < |table| ==> both(table[i]) == (keep(table[i]) && added(table[i]))
    ensures Selects(table, where + [c], dir, args + more, both)
  {
    assert BindsAll(where, args + more) by {
      assert forall i :: 0 <= i < |where| ==> Binds(where[i], args);
    }
    assert BindsAll(where + [c], args + more);
    forall i | 0 <= i < |table|
      ensures HoldsAll(where + [c], dir, args + more, table[i]) == both(table[i])
    {
      HoldsWithMore(where, dir, args, more, table[i]);
      HoldsSnoc(where, c, dir, args + more, table[i]);
    }
  }

  /** Runs the query built so far and collects its page. */
  method FetchPage(table: seq<Row>, where: seq<Condition>, dir: Direction, args: seq<Arg>, limit: nat,
                   ghost keep: Row -> bool, ghost place: Place)
    returns (page: Page)
    requires IsTable(table) && limit > 0
    requires Selects(table, where, dir, args, r => keep(r) && IsPast(dir, place, KeyOf(r)))
    ensures AllStored(Remaining(table, keep, dir, place))
    ensures page == PageOf(Remaining(table, keep, dir, place), limit)
  {
    var all := args + [IntArg(limit + 1)];
    ghost var wanted := (r: Row) => keep(r) && IsPast(dir, place, KeyOf(r));
    assert BindsAll(where, all) by {
      assert forall i :: 0 <= i < |where| ==> Binds(where[i], args);
    }
    forall i | 0 <= i < |table| ensures HoldsAll(where, dir, all, table[i]) == wanted(table[i]) {
      HoldsWithMore(where, dir, args, [IntArg(limit + 1)], table[i]);
    }
    FilterSame(table, r => HoldsAll(where, dir, all, r), wanted);
    RemainingStored(table, keep, dir, place);
    OneMoreIsEnough(Remaining(table, keep, dir, place), limit);
    page := CollectPage(Answer(table, Query(where, dir, |all|), all), limit);
  }

  // ---------------------------------------------------------------- the services

  function Clamp(limit: int, default: nat): (n: nat)
    requires default > 0
    ensures n > 0
  {
    if limit <= 0 || limit > 100 then default else limit
  }

  predicate IsValidIssueStatus(s: string) { s == "open" || s == "closed" || s == "duplicate" }

  predicate Refers(r: Row, column: string, id: Uuid) { column in r.refs && r.refs[column] == id }

  /** Every listing starts with one condition: the rows of this repository, issue, pull request or user. */
  lemma FirstCondition(table: seq<Row>, dir: Direction, column: string, id: Uuid, keep: Row -> bool)
    requires forall i :: 0 <= i < |table| ==> keep(table[i]) == Refers(table[i], column, id)
    ensures Selects(table, [RefIs(column, 1)], dir, [IdArg(id)], keep)
  {
    var where, args := [RefIs(column, 1)], [IdArg(id)];
    forall i | 0 <= i < |table| ensures HoldsAll(where, dir, args, table[i]) == keep(table[i]) {
      assert Holds(where[0], dir, args, table[i]) == Refers(table[i], column, id);
    }
  }

  predicate KeepsIssue(r: Row, repo: Uuid, status: string) {
    Refers(r, "repo_id", repo) && (IsValidIssueStatus(status) ==> r.status == status)
  }

  /** The cursor clause of issues and comments: by time alone for the older form, otherwise the OR form. */
  method AddCursor(table: seq<Row>, where: seq<Condition>, dir: Direction, args: seq<Arg>, cursor: string,
                   ghost keep: Row -> bool)
    returns (r: Result<(seq<Condition>, seq<Arg>), CursorError>)
    requires Selects(table, where, dir, args, keep)
    ensures match EITHER_FORM(cursor)
            case Err(e) => r == Err(e)
            case Ok(place) =>
              r.Ok? && Selects(table, r.value.0, dir, r.value.1, row => keep(row) && IsPast(dir, place, KeyOf(row)))
  {
    if cursor == "" { return Ok((where, args)); }
    var decoded := DecodeCursor(cursor);
    if decoded.Err? { return Err(decoded.error); }
    var (time, id) := decoded.value;
    var argIdx := |args| + 1;
    ghost var place := EITHER_FORM(cursor).value;
    if id == NIL {
      AddCondition(table, where, dir, args, keep, TimePast(argIdx), [TimeArg(time)],
                   row => IsPast(dir, place, KeyOf(row)), row => keep(row) && IsPast(dir, place, KeyOf(row)));
      r := Ok((where + [TimePast(argIdx)], args + [TimeArg(time)]));
    } else {
      AddCondition(table, where, dir, args, keep, TimeOrIdPast(argIdx, argIdx, argIdx + 1), [TimeArg(time), IdArg(id)],
                   row => IsPast(dir, place, KeyOf(row)), row => keep(row) && IsPast(dir, place, KeyOf(row)));
      r := Ok((where + [TimeOrIdPast(argIdx, argIdx, argIdx + 1)], args + [TimeArg(time), IdArg(id)]));
    }
  }

  /** The issues of a repository after the cursor, with the status asked for if it is a known one. */
  function IssuesAfter(repo: Uuid, status: string, cursor: string): Row -> bool {
    (row: Row) =>
      && "repo_id" in row.refs && row.refs["repo_id"] == repo
      && (status == "open" || status == "closed" || status == "duplicate" ==> row.status == status)
      && AfterCursor(true, true, cursor, row)
  }

  function RowsAfter(column: string, id: Uuid, newestFirst: bool, olderForm: bool, cursor: string): Row -> bool {
    (row: Row) => column in row.refs && row.refs[column] == id && AfterCursor(newestFirst, olderForm, cursor, row)
  }

  /** Issues of a repository, newest first; an unknown status does not filter. */
  method ListIssues(table: seq<Row>, repo: Uuid, status: string, cursor: string, limit: int)
    returns (r: Result<Page, CursorError>)
    requires IsTable(table)
    ensures r == Listed(table, row => KeepsIssue(row, repo, status), Desc, EITHER_FORM, cursor, Clamp(limit, 30))
    ensures r.Err? <==> cursor != "" && DecodeCursor(cursor).Err?
    ensures r.Ok? ==>
              IsPageFor(r.value, table,
                        IssuesAfter(repo, status, cursor), true,
                        if 1 <= limit <= 100 then limit else 30)
  {
    ListedIsPage(table, row => KeepsIssue(row, repo, status), Desc, EITHER_FORM, true, cursor, Clamp(limit, 30),
                 IssuesAfter(repo, status, cursor));
    var n: nat := if limit <= 0 || limit > 100 then 30 else limit;
    var where, args := [RefIs("repo_id", 1)], [IdArg(repo)];
    var inRepo := (row: Row) => Refers(row, "repo_id", repo);
    ghost var keep := (row: Row) => KeepsIssue(row, repo, status);
    FirstCondition(table, Desc, "repo_id", repo, inRepo);
    if status != "" && IsValidIssueStatus(status) {
      AddCondition(table, where, Desc, args, inRepo, StatusIs(2), [TextArg(status)],
                   (row: Row) => row.status == status, keep);
      where, args := where + [StatusIs(2)], args + [TextArg(status)];
    }
    assert Selects(table, where, Desc, args, keep);
    var q := AddCursor(table, where, Desc, args, cursor, keep);
    if q.Err? { return Err(q.error); }
    var page := FetchPage(table, q.value.0, Desc, q.value.1, n, keep, EITHER_FORM(cursor).value);
    r := Ok(page);
  }

  /** Comments of an issue or of a pull request, oldest first. */
  method ListComments(table: seq<Row>, column: string, id: Uuid, cursor: string, limit: int)
    returns (r: Result<Page, CursorError>)
    requires IsTable(table)
    ensures r == Listed(table, row => Refers(row, column, id), Asc, EITHER_FORM, cursor, Clamp(limit, 50))
    ensures r.Err? <==> cursor != "" && DecodeCursor(cursor).Err?
    ensures r.Ok? ==>
              IsPageFor(r.value, table,
                        RowsAfter(column, id, false, true, cursor), false,
                        if 1 <= limit <= 100 then limit else 50)
  {
    ListedIsPage(table, row => Refers(row, column, id), Asc, EITHER_FORM, true, cursor, Clamp(limit, 50),
                 RowsAfter(column, id, false, true, cursor));
    var n: nat := if limit <= 0 || limit > 100 then 50 else limit;
    ghost var keep := (row: Row) => Refers(row, column, id);
    FirstCondition(table, Asc, column, id, keep);
    var q := AddCursor(table, [RefIs(column, 1)], Asc, [IdArg(id)], cursor, keep);
    if q.Err? { return Err(q.error); }
    var page := FetchPage(table, q.value.0, Asc, q.value.1, n, keep, EITHER_FORM(cursor).value);
    r := Ok(page);
  }

  /** Events of a repository ("repo_id") or of a user ("actor_id"), newest first, by row comparison. */
  method ListEvents(table: seq<Row>, column: string, id: Uuid, cursor: string, limit: int)
    returns (r: Result<Page, CursorError>)
    requires IsTable(table)
    ensures r == Listed(table, row => Refers(row, column, id), Desc, ONE_FORM, cursor, Clamp(limit, 50))
    ensures r.Err? <==> cursor != "" && DecodeCursor(cursor).Err?
    ensures r.Ok? ==>
              IsPageFor(r.value, table,
                        RowsAfter(column, id, true, false, cursor), true,
                        if 1 <= limit <= 100 then limit else 50)
  {
    ListedIsPage(table, row => Refers(row, column, id), Desc, ONE_FORM, false, cursor, Clamp(limit, 50),
                 RowsAfter(column, id, true, false, cursor));
    var n: nat := if limit <= 0 || limit > 100 then 50 else limit;
    var where, args := [RefIs(column, 1)], [IdArg(id)];
    ghost var keep := (row: Row) => Refers(row, column, id);
    ghost var place := Start;
    FirstCondition(table, Desc, column, id, keep);
    FirstCondition(table, Desc, column, id, row => keep(row) && IsPast(Desc, Start, KeyOf(row)));
    if cursor != "" {
      var decoded := DecodeCursor(cursor);
      if decoded.Err? { return Err(decoded.error); }
      var (time, cursorId) := decoded.value;
      place := PastKey(Key(Instant(time), cursorId));
      AddCondition(table, where, Desc, args, keep, RowPast(2, 3), [TimeArg(time), IdArg(cursorId)],
                   row => IsPast(Desc, place, KeyOf(row)), row => keep(row) && IsPast(Desc, place, KeyOf(row)));
      where, args := where + [RowPast(2, 3)], args + [TimeArg(time), IdArg(cursorId)];
    }
    var page := FetchPage(table, where, Desc, args, n, keep, place);
    r := Ok(page);
  }

  // ---------------------------------------------------------------- the three cursor forms

  /** The OR form and the row comparison select the same rows, in either direction. */
  lemma OrFormIsRowComparison(dir: Direction, args: seq<Arg>, t: nat, n: nat, r: Row)
    requires HasTime(args, t) && HasId(args, n)
    ensures Holds(TimeOrIdPast(t, t, n), dir, args, r) == Holds(RowPast(t, n), dir, args, r)
  {
  }

  /** Descending, the time-only form of an older cursor is the row comparison with the nil id. */
  lemma DescendingOlderForm(table: seq<Row>, keep: Row -> bool, at: int)
    ensures Remaining(table, keep, Desc, PastTime(at)) == Remaining(table, keep, Desc, PastKey(Key(at, NIL)))
  {
    FilterSame(table, r => keep(r) && IsPast(Desc, PastTime(at), KeyOf(r)),
               r => keep(r) && IsPast(Desc, PastKey(Key(at, NIL)), KeyOf(r)));
  }

  /** Ascending it is not: it leaves out exactly the rows created at the cursor's own instant. */
  lemma AscendingOlderForm(table: seq<Row>, keep: Row -> bool, at: int)
    requires IsTable(table)
    ensures Remaining(table, keep, Asc, PastTime(at)) == Remaining(table, keep, Asc, PastKey(Key(at, NIL)))
            <==> !exists r :: r in table && keep(r) && r.at == at
  {
    var byTime := r => keep(r) && IsPast(Asc, PastTime(at), KeyOf(r));
    var byRow := r => keep(r) && IsPast(Asc, PastKey(Key(at, NIL)), KeyOf(r));
    ListingFacts(table, byTime, Asc);
    ListingFacts(table, byRow, Asc);
    if r :| r in table && keep(r) && r.at == at {
      assert r in Listing(table, byRow, Asc) && r !in Listing(table, byTime, Asc);
    } else {
      FilterSame(table, byTime, byRow);
    }
  }

  // ---------------------------------------------------------------- following the cursors

  /**
   * A caller fetches page after page, each with the cursor of the one before, while the table may change
   * between fetches: `tables[i]` is what page `i` was taken from.
   */
  ghost predicate IsWalk(tables: seq<seq<Row>>, pages: seq<Page>, keep: Row -> bool, dir: Direction, placeOf: Places,
                         limit: nat)
  {
    && |tables| == |pages| > 0 && limit > 0
    && forall i {:trigger IsFetch(tables[i], pages, i, keep, dir, placeOf, limit)} :: 0 <= i < |pages| ==>
         IsFetch(tables[i], pages, i, keep, dir, placeOf, limit)
  }

  ghost predicate IsFetch(table: seq<Row>, pages: seq<Page>, i: nat, keep: Row -> bool, dir: Direction, placeOf: Places,
                          limit: nat)
    requires i < |pages| && limit > 0
  {
    && IsTable(table)
    && (i > 0 ==> pages[i - 1].next != "")
    && Listed(table, keep, dir, placeOf, if i == 0 then "" else pages[i - 1].next, limit) == Ok(pages[i])
  }

  predicate BeginsWith(all: seq<Row>, part: seq<Row>) { |part| <= |all| && part == all[..|part|] }

  /** All rows fetched, in the order they arrived. */
  function Fetched(pages: seq<Page>): seq<Row>
    decreases |pages|
  {
    if pages == [] then [] else Fetched(pages[..|pages| - 1]) + pages[|pages| - 1].rows
  }

  /** A page's own cursor leads past its last row, under either reading of cursors. */
  lemma NextLeadsPastLastRow(rows: seq<Row>, limit: nat, placeOf: Places)
    requires Faithful(placeOf) && limit > 0 && AllStored(rows) && |rows| > limit
    ensures PageOf(rows, limit).next != ""
    ensures placeOf(PageOf(rows, limit).next) == Ok(PastKey(KeyOf(rows[limit - 1])))
  {
    assert IsStored(rows[limit - 1]);
  }

  lemma StoredRowLeads(r: Row, olderForm: bool)
    requires IsStored(r)
    ensures EncodeCursor(r.createdAt, r.id) != ""
    ensures PlaceOf(EncodeCursor(r.createdAt, r.id), olderForm) == Ok(PastKey(KeyOf(r)))
  {
    CursorRoundTrip(r.createdAt, r.id);
    FormatIsBytes(r.createdAt, r.id);
    Base64RoundTrip(FormatTime(r.createdAt) + "|" + FormatUuid(r.id));
  }

  /** All three services read the cursors they hand out as the place past the row these were made from. */
  lemma ServicesAreFaithful()
    ensures Faithful(EITHER_FORM) && Faithful(ONE_FORM)
  {
    forall r: Row | IsStored(r)
      ensures EncodeCursor(r.createdAt, r.id) != ""
      ensures EITHER_FORM(EncodeCursor(r.createdAt, r.id)) == Ok(PastKey(KeyOf(r)))
      ensures ONE_FORM(EncodeCursor(r.createdAt, r.id)) == Ok(PastKey(KeyOf(r)))
    {
      StoredRowLeads(r, true);
      StoredRowLeads(r, false);
    }
  }

  lemma FetchedSnoc(pages: seq<Page>)
    requires pages != []
    ensures Fetched(pages) == Fetched(pages[..|pages| - 1]) + pages[|pages| - 1].rows
  {
  }

  // The same walk without cursors: each page is cut from what lies past the last row of the page before.

  predicate IsCut(page: Page, remaining: seq<Row>, limit: nat) {
    page.rows == Take(remaining, limit) && (page.next == "" <==> |remaining| <= limit)
  }

  function PlaceBefore(pages: seq<Page>, i: nat, limit: nat): Place
    requires i < |pages| && (i > 0 ==> |pages[i - 1].rows| == limit > 0)
  {
    if i == 0 then Start else PastKey(KeyOf(pages[i - 1].rows[limit - 1]))
  }

  ghost predicate IsKeyFetch(table: seq<Row>, pages: seq<Page>, i: nat, keep: Row -> bool, dir: Direction, limit: nat)
    requires i < |pages|
  {
    && IsTable(table)
    && (i > 0 ==> pages[i - 1].next != "" && |pages[i - 1].rows| == limit > 0)
    && IsCut(pages[i], Remaining(table, keep, dir, PlaceBefore(pages, i, limit)), limit)
  }

  ghost predicate IsKeyWalk(tables: seq<seq<Row>>, pages: seq<Page>, keep: Row -> bool, dir: Direction, limit: nat) {
    && |tables| == |pages| > 0 && limit > 0
    && forall i {:trigger IsKeyFetch(tables[i], pages, i, keep, dir, limit)} :: 0 <= i < |pages| ==>
         IsKeyFetch(tables[i], pages, i, keep, dir, limit)
  }

  lemma PageIsCut(table: seq<Row>, keep: Row -> bool, dir: Direction, place: Place, limit: nat, placeOf: Places)
    requires Faithful(placeOf) && IsTable(table) && limit > 0
    ensures AllStored(Remaining(table, keep, dir, place))
    ensures var page := PageOf(Remaining(table, keep, dir, place), limit);
            && IsCut(page, Remaining(table, keep, dir, place), limit)
            && (page.next != "" ==>
                  |page.rows| == limit && placeOf(page.next) == Ok(PastKey(KeyOf(page.rows[limit - 1]))))
  {
    var rest := Remaining(table, keep, dir, place);
    RemainingStored(table, keep, dir, place);
    if |rest| > limit { NextLeadsPastLastRow(rest, limit, placeOf); }
  }

  /** What is known of a page that continues: its cursor leads past its last row. */
  ghost predicate Leads(page: Page, placeOf: Places, limit: nat) {
    page.next != "" ==> |page.rows| == limit > 0 && placeOf(page.next) == Ok(PastKey(KeyOf(page.rows[limit - 1])))
  }

  lemma FetchByKey(table: seq<Row>, pages: seq<Page>, i: nat, keep: Row -> bool, dir: Direction, placeOf: Places,
                   limit: nat)
    requires Faithful(placeOf) && i < |pages| && limit > 0 && IsFetch(table, pages, i, keep, dir, placeOf, limit)
    requires i > 0 ==> Leads(pages[i - 1], placeOf, limit)
    ensures IsKeyFetch(table, pages, i, keep, dir, limit) && Leads(pages[i], placeOf, limit)
  {
    PageIsCut(table, keep, dir, PlaceBefore(pages, i, limit), limit, placeOf);
  }

  /** Every page of a walk that continues leads past its last row. */
  lemma {:induction false} WalkLeads(tables: seq<seq<Row>>, pages: seq<Page>, keep: Row -> bool, dir: Direction,
                                     placeOf: Places, limit: nat, i: nat)
    requires Faithful(placeOf) && IsWalk(tables, pages, keep, dir, placeOf, limit) && i < |pages|
    ensures Leads(pages[i], placeOf, limit)
    decreases i
  {
    if i > 0 { WalkLeads(tables, pages, keep, dir, placeOf, limit, i - 1); }
    StepByKey(tables, pages, keep, dir, placeOf, limit, i);
  }

  lemma StepByKey(tables: seq<seq<Row>>, pages: seq<Page>, keep: Row -> bool, dir: Direction, placeOf: Places,
                  limit: nat, i: nat)
    requires Faithful(placeOf) && IsWalk(tables, pages, keep, dir, placeOf, limit) && i < |pages|
    requires i > 0 ==> Leads(pages[i - 1], placeOf, limit)
    ensures IsKeyFetch(tables[i], pages, i, keep, dir, limit) && Leads(pages[i], placeOf, limit)
  {
    FetchOfWalk(tables, pages, keep, dir, placeOf, limit, i);
    FetchByKey(tables[i], pages, i, keep, dir, placeOf, limit);
  }

  lemma FetchOfWalk(tables: seq<seq<Row>>, pages: seq<Page>, keep: Row -> bool, dir: Direction, placeOf: Places,
                    limit: nat, i: nat)
    requires IsWalk(tables, pages, keep, dir, placeOf, limit) && i < |pages|
    ensures IsFetch(tables[i], pages, i, keep, dir, placeOf, limit)
  {
  }

  /** Cursors carry the place exactly: every walk by cursors is a walk by keys. */
  lemma WalkIsKeyWalk(tables: seq<seq<Row>>, pages: seq<Page>, keep: Row -> bool, dir: Direction, placeOf: Places,
                      limit: nat)
    requires Faithful(placeOf)
    requires IsWalk(tables, pages, keep, dir, placeOf, limit)
    ensures IsKeyWalk(tables, pages, keep, dir, limit)
  {
    forall i | 0 <= i < |pages| ensures IsKeyFetch(tables[i], pages, i, keep, dir, limit) {
      if i > 0 { WalkLeads(tables, pages, keep, dir, placeOf, limit, i - 1); }
      StepByKey(tables, pages, keep, dir, placeOf, limit, i);
    }
  }

  lemma WalkPrefix(tables: seq<seq<Row>>, pages: seq<Page>, keep: Row -> bool, dir: Direction, limit: nat)
    requires IsKeyWalk(tables, pages, keep, dir, limit) && |pages| > 1
    ensures IsKeyWalk(tables[..|tables| - 1], pages[..|pages| - 1], keep, dir, limit)
    ensures pages[|pages| - 2].next != "" && |pages[|pages| - 2].rows| == limit
  {
    var n := |pages| - 1;
    assert IsKeyFetch(tables[n], pages, n, keep, dir, limit);
    forall i | 0 <= i < n ensures IsKeyFetch(tables[i], pages[..n], i, keep, dir, limit) {
      assert IsKeyFetch(tables[i], pages, i, keep, dir, limit);
    }
  }

  /** One fetch: what its page holds, and which rows the page leaves for later. */
  lemma FetchFacts(table: seq<Row>, keep: Row -> bool, dir: Direction, place: Place, page: Page, limit: nat)
    requires IsTable(table) && limit > 0 && IsCut(page, Remaining(table, keep, dir, place), limit)
    ensures Ordered(dir, page.rows)
    ensures forall r :: r in page.rows ==> r in table && keep(r) && IsPast(dir, place, KeyOf(r))
    ensures page.next == "" ==> forall r :: r in table && keep(r) && IsPast(dir, place, KeyOf(r)) ==> r in page.rows
    ensures page.next != "" ==>
              && |page.rows| == limit
              && forall r :: r in table && keep(r) && IsPast(dir, place, KeyOf(r)) ==>
                   r in page.rows || Precedes(dir, KeyOf(page.rows[limit - 1]), KeyOf(r))
  {
    var wanted := r => keep(r) && IsPast(dir, place, KeyOf(r));
    ListingFacts(table, wanted, dir);
    CutFacts(dir, Remaining(table, keep, dir, place), page, limit);
  }

  lemma CutFacts(dir: Direction, all: seq<Row>, page: Page, limit: nat)
    requires limit > 0 && Ordered(dir, all) && IsCut(page, all, limit)
    ensures Ordered(dir, page.rows)
    ensures forall r :: r in page.rows ==> r in all
    ensures page.next == "" ==> page.rows == all
    ensures page.next != "" ==>
              && |page.rows| == limit
              && forall r :: r in all ==> r in page.rows || Precedes(dir, KeyOf(page.rows[limit - 1]), KeyOf(r))
  {
    if |all| > limit { LeftForLater(dir, all, limit); }
  }

  lemma LeftForLater(dir: Direction, all: seq<Row>, limit: nat)
    requires Ordered(dir, all) && 0 < limit < |all|
    ensures forall r :: r in all ==> r in all[..limit] || Precedes(dir, KeyOf(all[limit - 1]), KeyOf(r))
  {
    forall r | r in all && r !in all[..limit]
      ensures Precedes(dir, KeyOf(all[limit - 1]), KeyOf(r))
    {
      var i :| 0 <= i < |all| && all[i] == r;
      assert forall j :: 0 <= j < limit ==> all[j] == all[..limit][j];
    }
  }

  /** A row that stays in the table, with the columns the listing looks at unchanged, for the whole walk. */
  ghost predicate AlwaysListed(r: Row, tables: seq<seq<Row>>, keep: Row -> bool) {
    keep(r) && forall i :: 0 <= i < |tables| ==> r in tables[i]
  }

  /** The last row of a page that continues closes everything fetched so far. */
  ghost predicate Closes(dir: Direction, rows: seq<Row>, page: Page, limit: nat) {
    && |page.rows| == limit > 0
    && forall r :: r in rows ==> !Precedes(dir, KeyOf(page.rows[limit - 1]), KeyOf(r))
  }

  lemma OrderedAppend(dir: Direction, a: seq<Row>, b: seq<Row>)
    requires Ordered(dir, a) && Ordered(dir, b)
    requires forall i, j :: 0 <= i < |a| && 0 <= j < |b| ==> Precedes(dir, KeyOf(a[i]), KeyOf(b[j]))
    ensures Ordered(dir, a + b)
  {
  }

  lemma PrecedesChain(dir: Direction, a: Key, last: Key, b: Key)
    requires !Precedes(dir, last, a) && Precedes(dir, last, b)
    ensures Precedes(dir, a, b)
  {
  }

  /** What a walk has achieved: a row that was there throughout is fetched, or lies past the last page. */
  ghost predicate NoneSkipped(tables: seq<seq<Row>>, fetched: seq<Row>, page: Page, keep: Row -> bool, dir: Direction,
                              limit: nat)
  {
    if page.next == "" then forall r :: AlwaysListed(r, tables, keep) ==> r in fetched
    else
      && Closes(dir, fetched, page, limit)
      && forall r :: AlwaysListed(r, tables, keep) ==>
           r in fetched || Precedes(dir, KeyOf(page.rows[limit - 1]), KeyOf(r))
  }

  ghost predicate AllListed(fetched: seq<Row>, tables: seq<seq<Row>>, keep: Row -> bool) {
    forall r :: r in fetched ==> keep(r) && exists i :: 0 <= i < |tables| && r in tables[i]
  }

  ghost predicate IsSafe(tables: seq<seq<Row>>, fetched: seq<Row>, page: Page, keep: Row -> bool, dir: Direction,
                         limit: nat)
  {
    && Ordered(dir, fetched)
    && AllListed(fetched, tables, keep)
    && NoneSkipped(tables, fetched, page, keep, dir, limit)
  }

  lemma {:induction false} KeyWalkSafe(tables: seq<seq<Row>>, pages: seq<Page>, keep: Row -> bool,
                                       dir: Direction, limit: nat)
    requires IsKeyWalk(tables, pages, keep, dir, limit)
    ensures IsSafe(tables, Fetched(pages), pages[|pages| - 1], keep, dir, limit)
    decreases |pages|
  {
    var n := |pages| - 1;
    assert IsKeyFetch(tables[n], pages, n, keep, dir, limit);
    FetchedSnoc(pages);
    if n == 0 {
      assert Fetched(pages[..0]) == [] && Fetched(pages) == pages[0].rows;
      assert tables == [tables[0]];
      FirstFetch(tables[0], pages[0], keep, dir, limit);
    } else {
      WalkPrefix(tables, pages, keep, dir, limit);
      KeyWalkSafe(tables[..n], pages[..n], keep, dir, limit);
      assert pages[..n][n - 1] == pages[n - 1];
      NextFetch(tables, Fetched(pages[..n]), pages[n - 1], pages[n], keep, dir, limit);
    }
  }

  lemma FirstFetch(table: seq<Row>, page: Page, keep: Row -> bool, dir: Direction, limit: nat)
    requires IsTable(table) && limit > 0 && IsCut(page, Remaining(table, keep, dir, Start), limit)
    ensures IsSafe([table], page.rows, page, keep, dir, limit)
  {
    FetchFacts(table, keep, dir, Start, page, limit);
    forall r | r in page.rows ensures exists i :: 0 <= i < |[table]| && r in [table][i] {
      assert r in [table][0];
    }
    forall r | AlwaysListed(r, [table], keep) ensures r in table && keep(r) {
      assert r in [table][0];
    }
    if page.next != "" { StillCloses(dir, [], page, limit); assert [] + page.rows == page.rows; }
  }

  lemma NextFetch(tables: seq<seq<Row>>, fetched: seq<Row>, before: Page, page: Page, keep: Row -> bool, dir: Direction,
                  limit: nat)
    requires |tables| > 0 && |before.rows| == limit > 0 && IsTable(tables[|tables| - 1]) && before.next != ""
    requires IsSafe(tables[..|tables| - 1], fetched, before, keep, dir, limit)
    requires IsCut(page, Remaining(tables[|tables| - 1], keep, dir, PastKey(KeyOf(before.rows[limit - 1]))), limit)
    ensures IsSafe(tables, fetched + page.rows, page, keep, dir, limit)
  {
    var table := tables[|tables| - 1];
    var last := KeyOf(before.rows[limit - 1]);
    FetchFacts(table, keep, dir, PastKey(last), page, limit);
    forall i, j | 0 <= i < |fetched| && 0 <= j < |page.rows|
      ensures Precedes(dir, KeyOf(fetched[i]), KeyOf(page.rows[j]))
    {
      assert fetched[i] in fetched && page.rows[j] in page.rows;
      PrecedesChain(dir, KeyOf(fetched[i]), last, KeyOf(page.rows[j]));
    }
    OrderedAppend(dir, fetched, page.rows);
    forall r | r in fetched + page.rows ensures keep(r) && exists i :: 0 <= i < |tables| && r in tables[i] {
      if r in page.rows {
        assert r in tables[|tables| - 1];
      } else {
        var i :| 0 <= i < |tables| - 1 && r in tables[..|tables| - 1][i];
        assert r in tables[i];
      }
    }
    forall r | AlwaysListed(r, tables, keep)
      ensures r in fetched || (r in table && IsPast(dir, PastKey(last), KeyOf(r)))
    {
      assert r in tables[|tables| - 1];
      assert AlwaysListed(r, tables[..|tables| - 1], keep);
    }
    if page.next != "" { StillCloses(dir, fetched, page, limit); }
  }

  lemma StillCloses(dir: Direction, fetched: seq<Row>, page: Page, limit: nat)
    requires |page.rows| == limit > 0 && Ordered(dir, fetched + page.rows)
    ensures Closes(dir, fetched + page.rows, page, limit)
  {
    var all := fetched + page.rows;
    forall r | r in all ensures !Precedes(dir, KeyOf(page.rows[limit - 1]), KeyOf(r)) {
      var i :| 0 <= i < |all| && all[i] == r;
      assert all[|all| - 1] == page.rows[limit - 1];
      if i < |all| - 1 { assert Precedes(dir, KeyOf(all[i]), KeyOf(all[|all| - 1])); }
    }
  }

  // ---------------------------------------------------------------- a table that does not change

  /** The rows past the m-th of an ordered sequence are those from there on. */
  lemma SuffixMembers(dir: Direction, all: seq<Row>, m: nat)
    requires Ordered(dir, all) && 0 < m <= |all|
    ensures forall r :: r in all[m..] <==> r in all && Precedes(dir, KeyOf(all[m - 1]), KeyOf(r))
  {
    var last := KeyOf(all[m - 1]);
    forall r | r in all && Precedes(dir, last, KeyOf(r)) ensures r in all[m..] {
      var i :| 0 <= i < |all| && all[i] == r;
      assert i >= m;
      assert all[m..][i - m] == r;
    }
    forall r | r in all[m..] ensures r in all && Precedes(dir, last, KeyOf(r)) {
      var i :| 0 <= i < |all| - m && all[m..][i] == r;
      assert all[m + i] == r;
    }
  }

  lemma SuffixOrdered(dir: Direction, all: seq<Row>, m: nat)
    requires Ordered(dir, all) && m <= |all|
    ensures Ordered(dir, all[m..])
  {
  }

  /** Past the last row of a page, what remains is the rest of the listing. */
  lemma RemainingIsSuffix(table: seq<Row>, keep: Row -> bool, dir: Direction, m: nat)
    requires IsTable(table) && 0 < m <= |Listing(table, keep, dir)|
    ensures var all := Listing(table, keep, dir);
            Remaining(table, keep, dir, PastKey(KeyOf(all[m - 1]))) == all[m..]
  {
    var all := Listing(table, keep, dir);
    var last := KeyOf(all[m - 1]);
    ListingFacts(table, keep, dir);
    ListingFacts(table, r => keep(r) && IsPast(dir, PastKey(last), KeyOf(r)), dir);
    SuffixMembers(dir, all, m);
    SuffixOrdered(dir, all, m);
    OrderedUnique(dir, Remaining(table, keep, dir, PastKey(last)), all[m..]);
  }

  lemma RemainingAtStart(table: seq<Row>, keep: Row -> bool, dir: Direction)
    ensures Remaining(table, keep, dir, Start) == Listing(table, keep, dir)
  {
    FilterSame(table, r => keep(r) && IsPast(dir, Start, KeyOf(r)), keep);
  }

  lemma {:induction false} StaticKeyWalk(table: seq<Row>, tables: seq<seq<Row>>, pages: seq<Page>, keep: Row -> bool,
                                         dir: Direction, limit: nat)
    requires IsKeyWalk(tables, pages, keep, dir, limit)
    requires forall i :: 0 <= i < |tables| ==> tables[i] == table
    ensures IsPiece(Listing(table, keep, dir), pages[|pages| - 1], Fetched(pages), Times(|pages| - 1, limit), limit)
    decreases |pages|
  {
    var n := |pages| - 1;
    assert IsKeyFetch(tables[n], pages, n, keep, dir, limit);
    FetchedSnoc(pages);
    if n == 0 {
      assert Fetched(pages[..0]) == [];
      FirstIsPiece(table, pages[0], keep, dir, limit);
    } else {
      WalkPrefix(tables, pages, keep, dir, limit);
      StaticKeyWalk(table, tables[..n], pages[..n], keep, dir, limit);
      assert pages[..n][n - 1] == pages[n - 1];
      StaticStep(table, pages[n - 1], pages[n], Fetched(pages[..n]), keep, dir, Times(n, limit), limit);
    }
  }

  lemma FirstIsPiece(table: seq<Row>, page: Page, keep: Row -> bool, dir: Direction, limit: nat)
    requires IsCut(page, Remaining(table, keep, dir, Start), limit)
    ensures IsPiece(Listing(table, keep, dir), page, [] + page.rows, 0, limit)
  {
    RemainingAtStart(table, keep, dir);
    FirstPiece(Listing(table, keep, dir), page, limit);
  }

  /** `n` times `limit`, by addition. */
  function Times(n: nat, limit: nat): nat {
    if n == 0 then 0 else Times(n - 1, limit) + limit
  }

  lemma {:induction false} TimesAtLeast(n: nat, limit: nat)
    requires limit > 0
    ensures n <= Times(n, limit)
  {
    if n > 0 { TimesAtLeast(n - 1, limit); }
  }

  lemma StaticStep(table: seq<Row>, before: Page, page: Page, fetched: seq<Row>, keep: Row -> bool, dir: Direction,
                   from: nat, limit: nat)
    requires IsTable(table) && from >= limit > 0
    requires IsPiece(Listing(table, keep, dir), before, fetched, from - limit, limit) && before.next != ""
    requires |before.rows| == limit
    requires IsCut(page, Remaining(table, keep, dir, PastKey(KeyOf(before.rows[limit - 1]))), limit)
    ensures IsPiece(Listing(table, keep, dir), page, fetched + page.rows, from, limit)
  {
    var all := Listing(table, keep, dir);
    assert before.rows[limit - 1] == all[from - limit..][limit - 1] == all[from - 1];
    RemainingIsSuffix(table, keep, dir, from);
    NextPiece(all, before, page, fetched, from, limit);
  }

  /** A page is the piece of the listing from `from`, and with it everything before `from + limit` is fetched. */
  predicate IsPiece(all: seq<Row>, page: Page, fetched: seq<Row>, from: nat, limit: nat) {
    && from <= |all|
    && page.rows == Take(all[from..], limit)
    && (page.next == "" <==> |all| <= from + limit)
    && fetched == Take(all, from + limit)
  }

  lemma FirstPiece(all: seq<Row>, page: Page, limit: nat)
    requires IsCut(page, all, limit)
    ensures IsPiece(all, page, [] + page.rows, 0, limit)
  {
    assert all[0..] == all;
  }

  lemma NextPiece(all: seq<Row>, before: Page, page: Page, fetched: seq<Row>, from: nat, limit: nat)
    requires from >= limit && IsPiece(all, before, fetched, from - limit, limit) && before.next != ""
    requires from <= |all| && IsCut(page, all[from..], limit)
    ensures IsPiece(all, page, fetched + page.rows, from, limit)
  {
    TakeMore(all, from, limit);
  }

  lemma TakeMore(all: seq<Row>, from: nat, limit: nat)
    requires from <= |all|
    ensures Take(all, from) + Take(all[from..], limit) == Take(all, from + limit)
  {
  }

  /**
   * However the table changes between fetches, the rows fetched are in strict order, so none is repeated;
   * each was in the table it was fetched from; and a row that was there throughout has been fetched once the
   * cursors end, and until then has been fetched or lies past the last row of the last page.
   */
  lemma WalkSafe(tables: seq<seq<Row>>, pages: seq<Page>, keep: Row -> bool, dir: Direction, placeOf: Places,
                 limit: nat)
    requires Faithful(placeOf)
    requires IsWalk(tables, pages, keep, dir, placeOf, limit)
    ensures Ordered(dir, Fetched(pages))
    ensures AllListed(Fetched(pages), tables, keep)
    ensures NoneSkipped(tables, Fetched(pages), pages[|pages| - 1], keep, dir, limit)
  {
    WalkIsKeyWalk(tables, pages, keep, dir, placeOf, limit);
    KeyWalkSafe(tables, pages, keep, dir, limit);
  }

  /**
   * Over an unchanged table, following the cursors yields the listing piece by piece; the cursors end exactly
   * when all of it has been fetched, which a bounded number of fetches reaches.
   */
  lemma {:induction false} FollowingYieldsListing(table: seq<Row>, tables: seq<seq<Row>>, pages: seq<Page>,
                                                  keep: Row -> bool, dir: Direction, placeOf: Places, limit: nat)
    requires Faithful(placeOf)
    requires IsWalk(tables, pages, keep, dir, placeOf, limit)
    requires forall i :: 0 <= i < |tables| ==> tables[i] == table
    ensures pages[|pages| - 1].next == "" <==> Fetched(pages) == Listing(table, keep, dir)
    ensures BeginsWith(Listing(table, keep, dir), Fetched(pages))
    ensures |pages| <= |Listing(table, keep, dir)| + 1
  {
    WalkIsKeyWalk(tables, pages, keep, dir, placeOf, limit);
    KeyWalkYieldsListing(table, tables, pages, keep, dir, limit);
  }

  lemma {:induction false} KeyWalkYieldsListing(table: seq<Row>, tables: seq<seq<Row>>, pages: seq<Page>,
                                                keep: Row -> bool, dir: Direction, limit: nat)
    requires IsKeyWalk(tables, pages, keep, dir, limit)
    requires forall i :: 0 <= i < |tables| ==> tables[i] == table
    ensures pages[|pages| - 1].next == "" <==> Fetched(pages) == Listing(table, keep, dir)
    ensures BeginsWith(Listing(table, keep, dir), Fetched(pages))
    ensures |pages| <= |Listing(table, keep, dir)| + 1
  {
    StaticKeyWalk(table, tables, pages, keep, dir, limit);
    WholeWhenEnded(Listing(table, keep, dir), pages[|pages| - 1], Fetched(pages), |pages| - 1, limit);
  }

  lemma WholeWhenEnded(all: seq<Row>, page: Page, fetched: seq<Row>, n: nat, limit: nat)
    requires limit > 0 && IsPiece(all, page, fetched, Times(n, limit), limit)
    ensures page.next == "" <==> fetched == all
    ensures BeginsWith(all, fetched)
    ensures n <= |all|
  {
    TimesAtLeast(n, limit);
  }

  /** A walk can always go on while there is a cursor: a page's own cursor is never refused. */
  lemma {:induction false} WalkGoesOn(tables: seq<seq<Row>>, pages: seq<Page>, keep: Row -> bool, dir: Direction,
                                      placeOf: Places, limit: nat, table: seq<Row>)
    requires Faithful(placeOf)
    requires IsWalk(tables, pages, keep, dir, placeOf, limit) && pages[|pages| - 1].next != "" && IsTable(table)
    ensures exists page :: IsWalk(tables + [table], pages + [page], keep, dir, placeOf, limit)
  {
    var next := pages[|pages| - 1].next;
    NextIsListed(tables, pages, keep, dir, placeOf, limit, table);
    WalkSnoc(tables, pages, keep, dir, placeOf, limit, table, Listed(table, keep, dir, placeOf, next, limit).value);
  }

  lemma {:induction false} NextIsListed(tables: seq<seq<Row>>, pages: seq<Page>, keep: Row -> bool, dir: Direction,
                                        placeOf: Places, limit: nat, table: seq<Row>)
    requires Faithful(placeOf)
    requires IsWalk(tables, pages, keep, dir, placeOf, limit) && pages[|pages| - 1].next != "" && IsTable(table)
    ensures Listed(table, keep, dir, placeOf, pages[|pages| - 1].next, limit).Ok?
  {
    WalkLeads(tables, pages, keep, dir, placeOf, limit, |pages| - 1);
  }

  lemma WalkSnoc(tables: seq<seq<Row>>, pages: seq<Page>, keep: Row -> bool, dir: Direction, placeOf: Places,
                 limit: nat, table: seq<Row>, page: Page)
    requires IsWalk(tables, pages, keep, dir, placeOf, limit) && pages[|pages| - 1].next != "" && IsTable(table)
    requires Listed(table, keep, dir, placeOf, pages[|pages| - 1].next, limit) == Ok(page)
    ensures IsWalk(tables + [table], pages + [page], keep, dir, placeOf, limit)
  {
    forall i | 0 <= i < |pages| + 1
      ensures IsFetch((tables + [table])[i], pages + [page], i, keep, dir, placeOf, limit)
    {
      if i < |pages| {
        FetchAmongMore(tables, pages, page, i, keep, dir, placeOf, limit);
        assert (tables + [table])[i] == tables[i];
      } else {
        FetchLast(pages, page, table, keep, dir, placeOf, limit);
        assert (tables + [table])[i] == table;
      }
    }
  }

  lemma FetchAmongMore(tables: seq<seq<Row>>, pages: seq<Page>, page: Page, i: nat, keep: Row -> bool, dir: Direction,
                       placeOf: Places, limit: nat)
    requires IsWalk(tables, pages, keep, dir, placeOf, limit) && i < |pages|
    ensures IsFetch(tables[i], pages + [page], i, keep, dir, placeOf, limit)
  {
    assert IsFetch(tables[i], pages, i, keep, dir, placeOf, limit);
    assert (pages + [page])[i] == pages[i];
    assert i > 0 ==> (pages + [page])[i - 1] == pages[i - 1];
  }

  lemma FetchLast(pages: seq<Page>, page: Page, table: seq<Row>, keep: Row -> bool, dir: Direction, placeOf: Places,
                  limit: nat)
    requires |pages| > 0 && limit > 0 && IsTable(table) && pages[|pages| - 1].next != ""
    requires Listed(table, keep, dir, placeOf, pages[|pages| - 1].next, limit) == Ok(page)
    ensures IsFetch(table, pages + [page], |pages|, keep, dir, placeOf, limit)
  {
    assert (pages + [page])[|pages|] == page;
    assert (pages + [page])[|pages| - 1] == pages[|pages| - 1];
  }
}
