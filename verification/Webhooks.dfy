/**
 * Webhook deliveries and their retries (internal/services/webhook/service.go): the rows that `deliver` inserts and
 * `retryDelivery` updates, and the batches of `RetryPending`, of which one runs at a time.
 *
 * Times are in seconds. Building a payload or request may fail and leave a row as it was; writes to the database
 * do not fail, and the process does not die with a request under way.
 */
module Webhooks {
  import opened Common

  type Id = nat

  const MINUTE: int := 60
  const RETRY_DELAYS: seq<int> := [1 * MINUTE, 5 * MINUTE, 30 * MINUTE]
  const MAX_ATTEMPTS: nat := 3
  const MAX_CONCURRENT: nat := 10

  /** A row of webhook_deliveries; `posts` are the times its request was sent. */
  datatype Row = Row(attempts: nat, success: bool, nextRetry: Option<int>, posts: seq<int>)

  /** A delivery picked for retry, with the attempts read when it was picked. */
  datatype Retry = Waiting(attempts: nat) | Running(attempts: nat) | Posted(attempts: nat)

  datatype State = State(now: int, rows: map<Id, Row>, first: map<Id, int>, batch: map<Id, Retry>, running: set<Id>)

  datatype Event =
    | Tick(seconds: nat)
    | FirstPost(id: Id)                 // deliver sends the request
    | FirstRecord(id: Id, ok: bool)     // and inserts the row
    | Select(active: set<Id>)           // RetryPending reads what is due; `active` have an active webhook
    | Acquire(id: Id)                   // a slot of the semaphore
    | RetryPost(id: Id)                 // retryDelivery sends the request
    | RetryRecord(id: Id, ok: bool)     // and updates the row
    | Abandon(id: Id)                   // the request could not be built

  predicate IsDue(r: Row, now: int) {
    r.nextRetry.Some? && r.nextRetry.value < now && !r.success && r.attempts < MAX_ATTEMPTS
  }

  predicate Enabled(s: State, e: Event) {
    match e
    case Tick(_) => true
    case FirstPost(id) => id !in s.rows && id !in s.first
    case FirstRecord(id, _) => id in s.first
    case Select(_) => s.batch == map[]
    case Acquire(id) => id in s.batch && s.batch[id].Waiting? && |s.running| < MAX_CONCURRENT
    case RetryPost(id) => id in s.batch && s.batch[id].Running? && id in s.rows
    case RetryRecord(id, _) => id in s.batch && s.batch[id].Posted? && id in s.rows
    case Abandon(id) => id in s.batch && s.batch[id].Running?
  }

  /** When to try again after `attempts` attempts; the index into the delays is capped. */
  function NextRetry(attempts: nat, ok: bool, now: int): Option<int>
    requires attempts >= 1
  {
    if !ok && attempts < MAX_ATTEMPTS then
      var idx := if attempts - 1 >= |RETRY_DELAYS| then |RETRY_DELAYS| - 1 else attempts - 1;
      Some(now + RETRY_DELAYS[idx])
    else None
  }

  function Selected(rows: map<Id, Row>, active: set<Id>, now: int): map<Id, Retry> {
    map id | id in rows && id in active && IsDue(rows[id], now) :: Waiting(rows[id].attempts)
  }

  function Done(s: State, id: Id): State {
    s.(batch := s.batch - {id}, running := s.running - {id})
  }

  function Step(s: State, e: Event): State
    requires Enabled(s, e)
  {
    match e
    case Tick(seconds) => s.(now := s.now + seconds)
    case FirstPost(id) => s.(first := s.first[id := s.now])
    case FirstRecord(id, ok) =>
      s.(first := s.first - {id}, rows := s.rows[id := Row(1, ok, NextRetry(1, ok, s.now), [s.first[id]])])
    case Select(active) => s.(batch := Selected(s.rows, active, s.now))
    case Acquire(id) => s.(batch := s.batch[id := Running(s.batch[id].attempts)], running := s.running + {id})
    case RetryPost(id) =>
      s.(batch := s.batch[id := Posted(s.batch[id].attempts)],
         rows := s.rows[id := s.rows[id].(posts := s.rows[id].posts + [s.now])])
    case RetryRecord(id, ok) =>
      var n := s.batch[id].attempts + 1;
      Done(s, id).(rows := s.rows[id := Row(n, ok, NextRetry(n, ok, s.now), s.rows[id].posts)])
    case Abandon(id) => Done(s, id)
  }

  predicate CanRun(s: State, run: seq<Event>)
    decreases |run|
  {
    run == [] || (Enabled(s, run[0]) && CanRun(Step(s, run[0]), run[1..]))
  }

  function After(s: State, run: seq<Event>): State
    requires CanRun(s, run)
    decreases |run|
  {
    if run == [] then s else After(Step(s, run[0]), run[1..])
  }

  predicate Initial(s: State) {
    s.rows == map[] && s.first == map[] && s.batch == map[] && s.running == {}
  }

  // ---------------------------------------------------------------- invariant

  /** Another try is scheduled exactly while the delivery has failed and has attempts left. */
  predicate RowShape(r: Row) {
    1 <= r.attempts <= MAX_ATTEMPTS && (r.nextRetry.Some? <==> !r.success && r.attempts < MAX_ATTEMPTS)
  }

  /** Each request was sent more than its delay after the one before. */
  predicate Spaced(posts: seq<int>) {
    |posts| <= MAX_ATTEMPTS && forall i :: 0 <= i < |posts| - 1 ==> posts[i + 1] - posts[i] > RETRY_DELAYS[i]
  }

  predicate IsPosted(s: State, id: Id) { id in s.batch && s.batch[id].Posted? }

  predicate PostsOk(r: Row, posted: bool, now: int) {
    && |r.posts| == r.attempts + (if posted then 1 else 0)
    && Spaced(r.posts)
    && (|r.posts| > 0 ==> r.posts[|r.posts| - 1] <= now)
    && (!posted && r.nextRetry.Some? ==>
          1 <= r.attempts <= |RETRY_DELAYS|
          && r.nextRetry.value >= r.posts[r.attempts - 1] + RETRY_DELAYS[r.attempts - 1])
  }

  predicate RowOk(s: State, id: Id)
    requires id in s.rows
  {
    RowShape(s.rows[id]) && PostsOk(s.rows[id], IsPosted(s, id), s.now)
  }

  /** A picked delivery is as it was when it was picked, and holds a slot while it runs. */
  predicate RetryOk(s: State, id: Id)
    requires id in s.batch
  {
    && id in s.rows && s.batch[id].attempts == s.rows[id].attempts && IsDue(s.rows[id], s.now)
    && (id in s.running <==> !s.batch[id].Waiting?)
  }

  ghost predicate Inv(s: State) {
    && (forall id :: id in s.rows ==> RowOk(s, id))
    && (forall id :: id in s.batch ==> RetryOk(s, id))
    && (forall id :: id in s.first ==> id !in s.rows && s.first[id] <= s.now)
    && s.running <= s.batch.Keys && |s.running| <= MAX_CONCURRENT
  }

  lemma TickRow(r: Row, posted: bool, now: int, later: int)
    requires PostsOk(r, posted, now) && now <= later
    ensures PostsOk(r, posted, later)
  {
  }

  lemma RecordedRow(attempts: nat, ok: bool, posts: seq<int>, now: int)
    requires 1 <= attempts <= MAX_ATTEMPTS && |posts| == attempts && Spaced(posts) && posts[attempts - 1] <= now
    ensures RowShape(Row(attempts, ok, NextRetry(attempts, ok, now), posts))
    ensures PostsOk(Row(attempts, ok, NextRetry(attempts, ok, now), posts), false, now)
  {
  }

  lemma PostedRow(r: Row, now: int)
    requires RowShape(r) && PostsOk(r, false, now) && IsDue(r, now)
    ensures PostsOk(r.(posts := r.posts + [now]), true, now)
  {
    var posts := r.posts + [now];
    forall i | 0 <= i < |posts| - 1 ensures posts[i + 1] - posts[i] > RETRY_DELAYS[i] {
      if i < |r.posts| - 1 { assert posts[i + 1] == r.posts[i + 1] && posts[i] == r.posts[i]; }
    }
  }

  lemma TickInv(s: State, seconds: nat)
    requires Inv(s)
    ensures Inv(Step(s, Tick(seconds)))
  {
    var s' := Step(s, Tick(seconds));
    forall id | id in s'.rows ensures RowOk(s', id) {
      assert RowOk(s, id);
      TickRow(s.rows[id], IsPosted(s, id), s.now, s'.now);
    }
    forall id | id in s'.batch ensures RetryOk(s', id) { assert RetryOk(s, id); }
  }

  lemma PickedAreDue(s: State)
    requires Inv(s)
    ensures forall id :: id in s.batch ==> id in s.rows && IsDue(s.rows[id], s.now)
  {
    forall id | id in s.batch ensures id in s.rows && IsDue(s.rows[id], s.now) { assert RetryOk(s, id); }
  }

  lemma FirstInv(s: State, e: Event)
    requires Inv(s) && Enabled(s, e) && (e.FirstPost? || e.FirstRecord?)
    ensures Inv(Step(s, e))
  {
    var s' := Step(s, e);
    PickedAreDue(s);
    if e.FirstRecord? { RecordedRow(1, e.ok, [s.first[e.id]], s.now); }
    forall id | id in s'.batch ensures RetryOk(s', id) { assert RetryOk(s, id); }
    forall id | id in s'.rows ensures RowOk(s', id) {
      if id in s.rows { assert RowOk(s, id); }
    }
  }

  lemma SelectInv(s: State, active: set<Id>)
    requires Inv(s) && s.batch == map[]
    ensures Inv(Step(s, Select(active)))
  {
    var s' := Step(s, Select(active));
    forall id | id in s'.rows ensures RowOk(s', id) { assert RowOk(s, id); }
    assert s.running == {};
  }

  /** Nothing but the delivery `id` is touched. */
  ghost predicate SameButFor(s: State, s': State, id: Id) {
    && s'.now == s.now && s'.first == s.first && s'.rows.Keys == s.rows.Keys
    && forall other :: other != id ==>
         && (other in s.rows ==> s'.rows[other] == s.rows[other])
         && (other in s'.batch <==> other in s.batch)
         && (other in s.batch ==> s'.batch[other] == s.batch[other])
         && (other in s'.running <==> other in s.running)
  }

  lemma OthersInv(s: State, s': State, id: Id)
    requires Inv(s) && id in s.rows && SameButFor(s, s', id)
    requires RowOk(s', id) && (id in s'.batch ==> RetryOk(s', id))
    requires (id in s'.running ==> id in s'.batch) && |s'.running| <= MAX_CONCURRENT
    ensures Inv(s')
  {
    OtherRows(s, s', id);
    OtherRetries(s, s', id);
  }

  lemma OtherRows(s: State, s': State, id: Id)
    requires SameButFor(s, s', id) && forall k :: k in s.rows ==> RowOk(s, k)
    requires id in s'.rows && RowOk(s', id)
    ensures forall k :: k in s'.rows ==> RowOk(s', k)
  {
    forall k | k in s'.rows ensures RowOk(s', k) {
      if k != id { OtherRow(s, s', id, k); }
    }
  }

  lemma OtherRetries(s: State, s': State, id: Id)
    requires SameButFor(s, s', id) && forall k :: k in s.batch ==> RetryOk(s, k)
    requires id in s'.batch ==> RetryOk(s', id)
    ensures forall k :: k in s'.batch ==> RetryOk(s', k)
  {
    forall k | k in s'.batch ensures RetryOk(s', k) {
      if k != id { OtherRetry(s, s', id, k); }
    }
  }

  lemma OtherRow(s: State, s': State, id: Id, other: Id)
    requires SameButFor(s, s', id) && other != id && other in s.rows && RowOk(s, other)
    ensures other in s'.rows && RowOk(s', other)
  {
  }

  lemma OtherRetry(s: State, s': State, id: Id, other: Id)
    requires SameButFor(s, s', id) && other != id && other in s.batch && RetryOk(s, other)
    ensures other in s'.batch && RetryOk(s', other)
  {
  }

  lemma AcquireInv(s: State, id: Id)
    requires Inv(s) && Enabled(s, Acquire(id))
    ensures Inv(Step(s, Acquire(id)))
  {
    var s' := Step(s, Acquire(id));
    assert RetryOk(s, id) && RowOk(s, id);
    OthersInv(s, s', id);
  }

  lemma PostOk(s: State, id: Id)
    requires Enabled(s, RetryPost(id)) && RetryOk(s, id) && RowOk(s, id)
    ensures RowOk(Step(s, RetryPost(id)), id) && RetryOk(Step(s, RetryPost(id)), id)
  {
    PostedRow(s.rows[id], s.now);
  }

  lemma RetryPostInv(s: State, id: Id)
    requires Inv(s) && Enabled(s, RetryPost(id))
    ensures Inv(Step(s, RetryPost(id)))
  {
    assert RetryOk(s, id) && RowOk(s, id);
    PostOk(s, id);
    OthersInv(s, Step(s, RetryPost(id)), id);
  }

  lemma FewerRunning(running: set<Id>, id: Id)
    requires |running| <= MAX_CONCURRENT
    ensures |running - {id}| <= MAX_CONCURRENT
  {
    if id in running { assert |running - {id}| == |running| - 1; } else { assert running - {id} == running; }
  }

  lemma RecordedOk(s: State, id: Id, ok: bool)
    requires Enabled(s, RetryRecord(id, ok)) && RetryOk(s, id) && RowOk(s, id)
    ensures RowOk(Step(s, RetryRecord(id, ok)), id)
  {
    RecordedRow(s.batch[id].attempts + 1, ok, s.rows[id].posts, s.now);
  }

  lemma RetryRecordInv(s: State, id: Id, ok: bool)
    requires Inv(s) && Enabled(s, RetryRecord(id, ok))
    ensures Inv(Step(s, RetryRecord(id, ok)))
  {
    assert RetryOk(s, id) && RowOk(s, id);
    RecordedOk(s, id, ok);
    FewerRunning(s.running, id);
    OthersInv(s, Step(s, RetryRecord(id, ok)), id);
  }

  lemma AbandonedOk(s: State, id: Id)
    requires Enabled(s, Abandon(id)) && RetryOk(s, id) && RowOk(s, id)
    ensures id in Step(s, Abandon(id)).rows && RowOk(Step(s, Abandon(id)), id)
    ensures id !in Step(s, Abandon(id)).batch && id !in Step(s, Abandon(id)).running
    ensures SameButFor(s, Step(s, Abandon(id)), id)
  {
  }

  lemma AbandonInv(s: State, id: Id)
    requires Inv(s) && Enabled(s, Abandon(id))
    ensures Inv(Step(s, Abandon(id)))
  {
    assert RetryOk(s, id) && RowOk(s, id);
    AbandonedOk(s, id);
    FewerRunning(s.running, id);
    OthersInv(s, Step(s, Abandon(id)), id);
  }

  lemma StepInv(s: State, e: Event)
    requires Inv(s) && Enabled(s, e)
    ensures Inv(Step(s, e))
  {
    match e {
      case Tick(seconds) => TickInv(s, seconds);
      case FirstPost(_) => FirstInv(s, e);
      case FirstRecord(_, _) => FirstInv(s, e);
      case Select(active) => SelectInv(s, active);
      case Acquire(id) => AcquireInv(s, id);
      case RetryPost(id) => RetryPostInv(s, id);
      case RetryRecord(id, ok) => RetryRecordInv(s, id, ok);
      case Abandon(id) => AbandonInv(s, id);
    }
  }

  lemma {:induction false} RunInv(s: State, run: seq<Event>)
    requires Inv(s) && CanRun(s, run)
    ensures Inv(After(s, run))
    decreases |run|
  {
    if run != [] {
      StepInv(s, run[0]);
      RunInv(Step(s, run[0]), run[1..]);
    }
  }

  // ---------------------------------------------------------------- what the retries guarantee

  /**
   * In every run, a delivery has between one and three attempts and is scheduled again exactly while it has failed
   * with attempts left; it is posted at most three times, more than one minute and then more than five minutes
   * after the time before.
   */
  lemma DeliveriesAreBounded(s: State, run: seq<Event>, id: Id)
    requires Initial(s) && CanRun(s, run) && id in After(s, run).rows
    ensures var r := After(s, run).rows[id];
            && 1 <= r.attempts <= 3 && (r.nextRetry.Some? <==> !r.success && r.attempts < 3)
            && 1 <= |r.posts| <= 3
            && (|r.posts| > 1 ==> r.posts[1] - r.posts[0] > 60)
            && (|r.posts| > 2 ==> r.posts[2] - r.posts[1] > 300)
  {
    RunInv(s, run);
    assert RowOk(After(s, run), id);
  }

  /** At any time at most ten retries hold a slot, and one that waits can start as soon as there are fewer. */
  lemma AtMostTen(s: State, run: seq<Event>)
    requires Initial(s) && CanRun(s, run)
    ensures |After(s, run).running| <= 10
    ensures forall id :: id in After(s, run).batch && After(s, run).batch[id].Waiting? ==>
              (Enabled(After(s, run), Acquire(id)) <==> |After(s, run).running| < 10)
  {
    RunInv(s, run);
  }

  /** A delivery that succeeded, or that failed for the last time, never changes again. */
  lemma SettledIsFinal(s: State, e: Event, id: Id)
    requires Inv(s) && Enabled(s, e) && id in s.rows && s.rows[id].nextRetry.None?
    ensures id in Step(s, e).rows && Step(s, e).rows[id] == s.rows[id]
  {
    PickedAreDue(s);
    assert id !in s.first;
  }

  lemma {:induction false} SettledForever(s: State, run: seq<Event>, id: Id)
    requires Inv(s) && CanRun(s, run) && id in s.rows && s.rows[id].nextRetry.None?
    ensures id in After(s, run).rows && After(s, run).rows[id] == s.rows[id]
    decreases |run|
  {
    if run != [] {
      SettledIsFinal(s, run[0], id);
      StepInv(s, run[0]);
      SettledForever(Step(s, run[0]), run[1..], id);
    }
  }

  /** The index into the delays is in range by itself: the cap never applies, and the last delay is never used. */
  lemma LastDelayIsUnused(s: State, id: Id, ok: bool)
    requires Inv(s) && Enabled(s, RetryRecord(id, ok))
    ensures var n := Step(s, RetryRecord(id, ok)).rows[id].attempts;
            && 2 <= n <= 3
            && (NextRetry(n, ok, s.now).Some? ==> n - 1 == 1 && NextRetry(n, ok, s.now) == Some(s.now + 300))
  {
    assert RetryOk(s, id) && RowOk(s, id);
  }

  // ---------------------------------------------------------------- a batch, however its retries interleave

  predicate SelectFree(run: seq<Event>) { forall i :: 0 <= i < |run| ==> !run[i].Select? }

  /** How often in a run the retry of `id` ends, by its update or given up. */
  function Ends(run: seq<Event>, id: Id): nat
    decreases |run|
  {
    if run == [] then 0
    else (if run[0] == Abandon(id) || (run[0].RetryRecord? && run[0].id == id) then 1 else 0) + Ends(run[1..], id)
  }

  /** The row of a picked delivery that was `before` when picked: as it was until its request is sent. */
  predicate AsPicked(s: State, id: Id, before: Row) {
    && id in s.rows && id in s.batch && s.batch[id].attempts == before.attempts
    && if s.batch[id].Posted? then
         |s.rows[id].posts| == |before.posts| + 1 && s.rows[id] == before.(posts := s.rows[id].posts)
       else s.rows[id] == before
  }

  /** Tried once: one more attempt and one more post, with the outcome the run records. */
  ghost predicate TriedOnce(run: seq<Event>, before: Row, after: Row, id: Id) {
    && after.attempts == before.attempts + 1 && |after.posts| == |before.posts| + 1
    && RetryRecord(id, after.success) in run
  }

  /** A delivery that is not in the batch is not touched. */
  lemma {:induction false} NotPickedStays(s: State, run: seq<Event>, id: Id)
    requires Inv(s) && CanRun(s, run) && SelectFree(run) && id in s.rows && id !in s.batch
    ensures id in After(s, run).rows && After(s, run).rows[id] == s.rows[id] && Ends(run, id) == 0
    decreases |run|
  {
    if run != [] {
      StepInv(s, run[0]);
      assert id !in s.first;
      assert forall i :: 0 <= i < |run[1..]| ==> run[1..][i] == run[i + 1];
      NotPickedStays(Step(s, run[0]), run[1..], id);
    }
  }

  lemma PickedStep(s: State, e: Event, id: Id, before: Row)
    requires Inv(s) && Enabled(s, e) && !e.Select? && AsPicked(s, id, before)
    ensures !(e == Abandon(id) || (e.RetryRecord? && e.id == id)) ==> AsPicked(Step(s, e), id, before)
    ensures e == Abandon(id) ==> id !in Step(s, e).batch && id in Step(s, e).rows && Step(s, e).rows[id] == before
    ensures e.RetryRecord? && e.id == id ==>
              && id !in Step(s, e).batch && id in Step(s, e).rows && Step(s, e).rows[id].success == e.ok
              && Step(s, e).rows[id].attempts == before.attempts + 1
              && |Step(s, e).rows[id].posts| == |before.posts| + 1
  {
    assert id !in s.first;
  }

  lemma {:induction false} PickedEndsOnce(s: State, run: seq<Event>, id: Id, before: Row)
    requires Inv(s) && CanRun(s, run) && SelectFree(run) && AsPicked(s, id, before) && After(s, run).batch == map[]
    ensures Ends(run, id) == 1 && id in After(s, run).rows
    ensures TriedOnce(run, before, After(s, run).rows[id], id)
            || (Abandon(id) in run && After(s, run).rows[id] == before)
    decreases |run|
  {
    var e, s1 := run[0], Step(s, run[0]);
    StepInv(s, e);
    PickedStep(s, e, id, before);
    assert forall i :: 0 <= i < |run[1..]| ==> run[1..][i] == run[i + 1];
    assert e in run;
    if e == Abandon(id) || (e.RetryRecord? && e.id == id) {
      NotPickedStays(s1, run[1..], id);
    } else {
      PickedEndsOnce(s1, run[1..], id, before);
      assert forall x :: x in run[1..] ==> x in run;
    }
  }

  /**
   * However the goroutines of a batch interleave with each other, with new deliveries and with the clock: when the
   * batch is over, the retry of every due delivery of an active webhook has ended exactly once, with one more attempt
   * and one more post, or given up without a post; no other row has changed.
   */
  lemma BatchTriesEachOnce(s: State, active: set<Id>, run: seq<Event>, id: Id)
    requires Inv(s) && Enabled(s, Select(active)) && id in s.rows
    requires CanRun(Step(s, Select(active)), run) && SelectFree(run)
    requires After(Step(s, Select(active)), run).batch == map[]
    ensures var end := After(Step(s, Select(active)), run);
            && id in end.rows
            && if && id in active && s.rows[id].nextRetry.Some? && s.rows[id].nextRetry.value < s.now
                  && !s.rows[id].success && s.rows[id].attempts < 3 then
                 && Ends(run, id) == 1
                 && (TriedOnce(run, s.rows[id], end.rows[id], id) || (Abandon(id) in run && end.rows[id] == s.rows[id]))
               else Ends(run, id) == 0 && end.rows[id] == s.rows[id]
  {
    var s1 := Step(s, Select(active));
    StepInv(s, Select(active));
    if id in active && IsDue(s.rows[id], s.now) {
      PickedEndsOnce(s1, run, id, s.rows[id]);
    } else {
      NotPickedStays(s1, run, id);
    }
  }

  // ---------------------------------------------------------------- the service

  lemma RunOne(s: State, e: Event)
    requires Enabled(s, e)
    ensures CanRun(s, [e]) && After(s, [e]) == Step(s, e)
  {
    assert [e][1..] == [];
    assert CanRun(Step(s, e), []);
  }

  lemma {:induction false} RunAppend(s: State, a: seq<Event>, b: seq<Event>)
    requires CanRun(s, a) && CanRun(After(s, a), b)
    ensures CanRun(s, a + b) && After(s, a + b) == After(After(s, a), b)
    decreases |a|
  {
    if a == [] {
      assert a + b == b;
    } else {
      assert (a + b)[1..] == a[1..] + b;
      RunAppend(Step(s, a[0]), a[1..], b);
    }
  }

  lemma RunSnoc(s: State, run: seq<Event>, e: Event)
    requires CanRun(s, run) && Enabled(After(s, run), e)
    ensures CanRun(s, run + [e]) && After(s, run + [e]) == Step(After(s, run), e)
  {
    RunOne(After(s, run), e);
    RunAppend(s, run, [e]);
  }

  /** A first delivery whose request takes `seconds`. */
  function DeliverRun(id: Id, seconds: nat, ok: bool): seq<Event> {
    [FirstPost(id), Tick(seconds), FirstRecord(id, ok)]
  }

  /** One retry, from its slot in the semaphore to its update. */
  function RetryRun(id: Id, seconds: nat, ok: bool): seq<Event> {
    [Acquire(id), RetryPost(id)] + [Tick(seconds), RetryRecord(id, ok)]
  }

  lemma RunTwo(s: State, e: Event, f: Event)
    requires Enabled(s, e) && Enabled(Step(s, e), f)
    ensures CanRun(s, [e, f]) && After(s, [e, f]) == Step(Step(s, e), f)
  {
    RunOne(Step(s, e), f);
    assert [e, f][1..] == [f];
  }

  lemma RunThree(s: State, e: Event, f: Event, g: Event)
    requires Enabled(s, e) && Enabled(Step(s, e), f) && Enabled(Step(Step(s, e), f), g)
    ensures CanRun(s, [e, f, g]) && After(s, [e, f, g]) == Step(Step(Step(s, e), f), g)
  {
    RunTwo(Step(s, e), f, g);
    assert [e, f, g][1..] == [f, g];
  }

  /** A first delivery leaves one row, scheduled again a minute after it failed. */
  lemma DeliverEffect(s: State, id: Id, seconds: nat, ok: bool)
    requires id !in s.rows && id !in s.first
    ensures CanRun(s, DeliverRun(id, seconds, ok))
    ensures After(s, DeliverRun(id, seconds, ok))
            == s.(now := s.now + seconds,
                  rows := s.rows[id := Row(1, ok, if ok then None else Some(s.now + seconds + 60), [s.now])])
  {
    RunThree(s, FirstPost(id), Tick(seconds), FirstRecord(id, ok));
    assert s.first[id := s.now] - {id} == s.first;
  }

  /** A retry adds one attempt and one post to its row and leaves the batch; nothing else changes. */
  lemma RetryEffect(s: State, id: Id, seconds: nat, ok: bool)
    requires id in s.rows && id in s.batch && s.batch[id] == Waiting(s.rows[id].attempts)
    requires |s.running| < MAX_CONCURRENT
    ensures CanRun(s, RetryRun(id, seconds, ok))
    ensures var n, t := s.rows[id].attempts + 1, s.now + seconds;
            After(s, RetryRun(id, seconds, ok))
            == s.(now := t, batch := s.batch - {id}, running := s.running - {id},
                  rows := s.rows[id := Row(n, ok, if ok || n >= 3 then None else Some(t + if n == 1 then 60 else 300),
                                           s.rows[id].posts + [s.now])])
  {
    RunTwo(s, Acquire(id), RetryPost(id));
    var s2 := After(s, [Acquire(id), RetryPost(id)]);
    RunTwo(s2, Tick(seconds), RetryRecord(id, ok));
    RunAppend(s, [Acquire(id), RetryPost(id)], [Tick(seconds), RetryRecord(id, ok)]);
    assert s2.batch - {id} == s.batch - {id};
    assert s2.running - {id} == s.running - {id};
  }

  /** What came back from the receiver: a status, or none when the request failed. */
  type Response = Option<int>

  /** A status of the 2xx class. */
  predicate IsSuccess(response: Response)
    ensures IsSuccess(response) <==> response.Some? && response.value / 100 == 2
  {
    response.Some? && 200 <= response.value < 300
  }

  /** A batch under way: those of `todo` still wait, the other picked ones were tried once since `s0`. */
  ghost predicate Batching(s0: State, s: State, todo: set<Id>, active: set<Id>, respond: Id -> Response) {
    && s.batch.Keys == todo && s.running == {} && s.rows.Keys == s0.rows.Keys && s.first == s0.first
    && (forall id :: id in s.batch ==> id in s.rows && s.batch[id] == Waiting(s.rows[id].attempts))
    && (forall id :: id in todo ==> id in s.rows && id in active && IsDue(s0.rows[id], s0.now))
    && forall id :: id in s.rows ==> Tried(s0, s, id, id in active && id !in todo, respond)
  }

  predicate Tried(s0: State, s: State, id: Id, picked: bool, respond: Id -> Response)
    requires id in s.rows && id in s0.rows
  {
    var before, after := s0.rows[id], s.rows[id];
    if picked && IsDue(before, s0.now) then
      && after.attempts == before.attempts + 1 && after.success == IsSuccess(respond(id))
      && |after.posts| == |before.posts| + 1 && after.posts[..|before.posts|] == before.posts
    else after == before
  }

  lemma BatchBegins(s: State, active: set<Id>, respond: Id -> Response)
    requires s.batch == map[] && s.running == {}
    ensures var s' := Step(s, Select(active)); Batching(s, s', s'.batch.Keys, active, respond)
  {
  }

  lemma BatchGoesOn(s0: State, s: State, todo: set<Id>, active: set<Id>, seconds: nat, respond: Id -> Response, id: Id)
    requires Batching(s0, s, todo, active, respond) && id in todo
    ensures CanRun(s, RetryRun(id, seconds, IsSuccess(respond(id))))
    ensures Batching(s0, After(s, RetryRun(id, seconds, IsSuccess(respond(id)))), todo - {id}, active, respond)
  {
    var ok := IsSuccess(respond(id));
    RetryEffect(s, id, seconds, ok);
    var s' := After(s, RetryRun(id, seconds, ok));
    assert Tried(s0, s, id, false, respond);
    forall other | other in s'.rows ensures Tried(s0, s', other, other in active && other !in todo - {id}, respond) {
      if other != id { assert Tried(s0, s, other, other in active && other !in todo, respond); }
    }
  }

  class WebhookService {
    var now: int
    var rows: map<Id, Row>
    var first: map<Id, int>
    var batch: map<Id, Retry>
    var running: set<Id>

    ghost function Snapshot(): State reads this { State(now, rows, first, batch, running) }

    constructor (start: int)
      ensures Initial(Snapshot()) && now == start
    {
      now, rows, first, batch, running := start, map[], map[], map[], {};
    }

    /** The request takes `seconds`; then the row is inserted. */
    method Deliver(id: Id, seconds: nat, response: Response)
      requires id !in rows && id !in first
      modifies this
      ensures CanRun(old(Snapshot()), DeliverRun(id, seconds, IsSuccess(response)))
      ensures Snapshot() == After(old(Snapshot()), DeliverRun(id, seconds, IsSuccess(response)))
      ensures now == old(now) + seconds && first == old(first) && batch == old(batch) && running == old(running)
      ensures var ok := response.Some? && 200 <= response.value < 300;
              rows == old(rows)[id := Row(1, ok, if ok then None else Some(now + 60), [old(now)])]
    {
      ghost var s0 := Snapshot();
      var success := IsSuccess(response);
      DeliverEffect(s0, id, seconds, success);
      first := first[id := now];
      now := now + seconds;
      var nextRetry := None;
      if !success && 1 < MAX_ATTEMPTS && |RETRY_DELAYS| > 0 { nextRetry := Some(now + RETRY_DELAYS[0]); }
      rows := rows[id := Row(1, success, nextRetry, [first[id]])];
      first := first - {id};
      assert first == s0.first;
    }

    /** One retry; the request takes `seconds`. */
    method RetryDelivery(id: Id, seconds: nat, response: Response)
      requires id in rows && id in batch && batch[id] == Waiting(rows[id].attempts) && |running| < MAX_CONCURRENT
      modifies this
      ensures CanRun(old(Snapshot()), RetryRun(id, seconds, IsSuccess(response)))
      ensures Snapshot() == After(old(Snapshot()), RetryRun(id, seconds, IsSuccess(response)))
      ensures now == old(now) + seconds && first == old(first)
      ensures batch == old(batch) - {id} && running == old(running) - {id}
      ensures var ok, n := response.Some? && 200 <= response.value < 300, old(rows)[id].attempts + 1;
              rows == old(rows)[id := Row(n, ok, if ok || n >= 3 then None else Some(now + if n == 1 then 60 else 300),
                                          old(rows)[id].posts + [old(now)])]
    {
      ghost var s0 := Snapshot();
      var success := IsSuccess(response);
      RetryEffect(s0, id, seconds, success);
      var attempts := batch[id].attempts;
      running := running + {id};
      rows := rows[id := rows[id].(posts := rows[id].posts + [now])];
      now := now + seconds;
      var newAttempts := attempts + 1;
      var nextRetry := None;
      if !success && newAttempts < MAX_ATTEMPTS {
        var idx := newAttempts - 1;
        if idx >= |RETRY_DELAYS| { idx := |RETRY_DELAYS| - 1; }
        nextRetry := Some(now + RETRY_DELAYS[idx]);
      }
      rows := rows[id := Row(newAttempts, success, nextRetry, rows[id].posts)];
      batch, running := batch - {id}, running - {id};
      assert running == s0.running - {id};
    }

    /**
     * A batch whose retries happen to run one after the other: every due delivery of an active webhook is tried
     * exactly once, and nothing else is touched.
     */
    method RetryPending(active: set<Id>, seconds: Id -> nat, respond: Id -> Response) returns (ghost run: seq<Event>)
      requires batch == map[] && running == {}
      modifies this
      ensures CanRun(old(Snapshot()), run) && Snapshot() == After(old(Snapshot()), run)
      ensures rows.Keys == old(rows).Keys && batch == map[] && running == {}
      ensures forall id :: id in rows ==>
                var before, after := old(rows)[id], rows[id];
                if && id in active && before.nextRetry.Some? && before.nextRetry.value < old(now)
                   && !before.success && before.attempts < 3 then
                  && after.attempts == before.attempts + 1 && |after.posts| == |before.posts| + 1
                  && after.success == (respond(id).Some? && 200 <= respond(id).value < 300)
                else after == before
    {
      ghost var s0 := Snapshot();
      BatchBegins(s0, active, respond);
      RunOne(s0, Select(active));
      batch := map id | id in rows && id in active && IsDue(rows[id], now) :: Waiting(rows[id].attempts);
      run := [Select(active)];
      var todo := batch.Keys;
      while todo != {}
        invariant Batching(s0, Snapshot(), todo, active, respond)
        invariant CanRun(s0, run) && Snapshot() == After(s0, run)
        decreases todo
      {
        var id :| id in todo;
        BatchGoesOn(s0, Snapshot(), todo, active, seconds(id), respond, id);
        RunAppend(s0, run, RetryRun(id, seconds(id), IsSuccess(respond(id))));
        run := run + RetryRun(id, seconds(id), IsSuccess(respond(id)));
        RetryDelivery(id, seconds(id), respond(id));
        todo := todo - {id};
      }
    }
  }
}
