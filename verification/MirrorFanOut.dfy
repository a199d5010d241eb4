/**
 * RunDue's fan-out (internal/services/mirror/service.go): one goroutine per due mirror, at most five past the
 * semaphore at a time, each sending one result on a channel that is drained at the end. Every call has a semaphore of
 * its own; runDueMu, which a call only tries to take, keeps two calls from fanning out at once.
 */
module MirrorFanOut {
  import opened Common

  const MAX_INFLIGHT := 5

  type RepoId = nat

  /** A goroutine of RunDue; its deferred calls run in the order: release the semaphore, wg.Done. */
  datatype Worker = NotSpawned | Syncing | Sent | Released | Done

  /** A call past the lock. `tokens` is the number of values in its semaphore; `results` its result channel. */
  datatype Call = Call(ids: seq<RepoId>, workers: seq<Worker>, next: nat, tokens: nat, results: seq<nat>)

  datatype Move =
    | Spawn
    | Finish(i: nat)
    | Release(i: nat)
    | Leave(i: nat)

  predicate CanMove(c: Call, m: Move) {
    match m
    case Spawn => c.next < |c.ids| && c.next < |c.workers| && c.tokens < MAX_INFLIGHT
    case Finish(i) => i < |c.workers| && c.workers[i].Syncing? && |c.results| < |c.ids|
    case Release(i) => i < |c.workers| && c.workers[i].Sent? && c.tokens > 0
    case Leave(i) => i < |c.workers| && c.workers[i].Released?
  }

  function Moved(c: Call, m: Move): Call
    requires CanMove(c, m)
  {
    match m
    case Spawn => c.(workers := c.workers[c.next := Syncing], next := c.next + 1, tokens := c.tokens + 1)
    case Finish(i) => c.(workers := c.workers[i := Sent], results := c.results + [i])
    case Release(i) => c.(workers := c.workers[i := Released], tokens := c.tokens - 1)
    case Leave(i) => c.(workers := c.workers[i := Done])
  }

  function BeginCall(ids: seq<RepoId>): Call {
    Call(ids, seq(|ids|, _ => NotSpawned), 0, 0, [])
  }

  /** wg.Wait has returned: every id was dispatched and every goroutine is done. */
  predicate AllDone(c: Call) {
    c.next == |c.ids| && forall i :: 0 <= i < |c.workers| ==> c.workers[i].Done?
  }

  type CallId = nat

  /** `busy` is runDueMu; `calls` the calls of RunDue that got past it and have not returned. */
  datatype State = State(busy: bool, calls: map<CallId, Call>)

  datatype Event =
    | TryRun(id: CallId, due: seq<RepoId>)
    | Go(id: CallId, move: Move)
    | Return(id: CallId)

  const IDLE := State(false, map[])

  predicate Enabled(s: State, e: Event) {
    match e
    case TryRun(id, due) => id !in s.calls && |due| <= 50
    case Go(id, move) => id in s.calls && CanMove(s.calls[id], move)
    case Return(id) => id in s.calls && AllDone(s.calls[id])
  }

  function Step(s: State, e: Event): State
    requires Enabled(s, e)
  {
    match e
    case TryRun(id, due) => if s.busy then s else State(true, s.calls[id := BeginCall(due)])
    case Go(id, move) => s.(calls := s.calls[id := Moved(s.calls[id], move)])
    case Return(id) => State(false, s.calls - {id})
  }

  predicate CanRun(s: State, run: seq<Event>)
    decreases |run|
  {
    run == [] || (Enabled(s, run[0]) && CanRun(Step(s, run[0]), run[1..]))
  }

  function After(s: State, run: seq<Event>): State
    requires CanRun(s, run)
    decreases |run|
  {
    if run == [] then s else After(Step(s, run[0]), run[1..])
  }

  predicate HoldsToken(w: Worker) { w.Syncing? || w.Sent? }

  predicate HasSent(w: Worker) { w.Sent? || w.Released? || w.Done? }

  function Count(p: Worker -> bool, ws: seq<Worker>): (n: nat)
    ensures n <= |ws|
  {
    if ws == [] then 0 else Count(p, ws[..|ws| - 1]) + (if p(ws[|ws| - 1]) then 1 else 0)
  }

  lemma {:induction false} CountUpdate(p: Worker -> bool, ws: seq<Worker>, i: nat, w: Worker)
    requires i < |ws|
    ensures Count(p, ws[i := w]) == Count(p, ws) - (if p(ws[i]) then 1 else 0) + (if p(w) then 1 else 0)
    decreases |ws|
  {
    var n := |ws| - 1;
    if i == n {
      assert ws[i := w][..n] == ws[..n];
    } else {
      assert ws[i := w][..n] == ws[..n][i := w];
      CountUpdate(p, ws[..n], i, w);
    }
  }

  /** What one goroutine still has to do, in steps. */
  function Remaining(w: Worker): nat {
    match w
    case NotSpawned => 4
    case Syncing => 3
    case Sent => 2
    case Released => 1
    case Done => 0
  }

  function Work(ws: seq<Worker>): nat {
    if ws == [] then 0 else Work(ws[..|ws| - 1]) + Remaining(ws[|ws| - 1])
  }

  lemma {:induction false} WorkUpdate(ws: seq<Worker>, i: nat, w: Worker)
    requires i < |ws|
    ensures Work(ws[i := w]) == Work(ws) - Remaining(ws[i]) + Remaining(w)
    decreases |ws|
  {
    var n := |ws| - 1;
    if i == n {
      assert ws[i := w][..n] == ws[..n];
    } else {
      assert ws[i := w][..n] == ws[..n][i := w];
      WorkUpdate(ws[..n], i, w);
    }
  }

  ghost predicate CallInv(c: Call) {
    && |c.workers| == |c.ids| && c.next <= |c.ids|
    && (forall i :: 0 <= i < |c.workers| ==> (c.workers[i].NotSpawned? <==> i >= c.next))
    && c.tokens == Count(HoldsToken, c.workers) && c.tokens <= MAX_INFLIGHT
    && NoDup(c.results) && |c.results| == Count(HasSent, c.workers)
    && (forall i: nat :: i in c.results <==> i < |c.workers| && HasSent(c.workers[i]))
  }

  /** The lock is held exactly while a call is past it, and then by that one only. */
  ghost predicate Inv(s: State) {
    && (forall id :: id in s.calls ==> s.busy && CallInv(s.calls[id]))
    && (s.busy ==> exists id :: id in s.calls)
    && (forall id1, id2 :: id1 in s.calls && id2 in s.calls ==> id1 == id2)
  }

  lemma {:induction false} CountNone(p: Worker -> bool, n: nat)
    requires !p(NotSpawned)
    ensures Count(p, seq(n, _ => NotSpawned)) == 0
    decreases n
  {
    if n > 0 {
      assert seq(n, _ => NotSpawned)[..n - 1] == seq(n - 1, _ => NotSpawned);
      CountNone(p, n - 1);
    }
  }

  lemma BeginInv(ids: seq<RepoId>)
    ensures CallInv(BeginCall(ids))
  {
    CountNone(HoldsToken, |ids|);
    CountNone(HasSent, |ids|);
  }

  /** One goroutine moving on, once the two counters are known to follow. */
  lemma MoveInv(c: Call, c': Call, i: nat, w: Worker)
    requires CallInv(c) && i < |c.workers| && w != NotSpawned
    requires c'.workers == c.workers[i := w] && c'.ids == c.ids
    requires i <= c.next && c'.next == if i == c.next then c.next + 1 else c.next
    requires c'.tokens == c.tokens - (if HoldsToken(c.workers[i]) then 1 else 0) + (if HoldsToken(w) then 1 else 0)
    requires c'.tokens <= MAX_INFLIGHT
    requires HasSent(c.workers[i]) ==> HasSent(w)
    requires c'.results == if HasSent(w) && !HasSent(c.workers[i]) then c.results + [i] else c.results
    ensures CallInv(c')
  {
    CountUpdate(HoldsToken, c.workers, i, w);
    CountUpdate(HasSent, c.workers, i, w);
  }

  lemma CallStepInv(c: Call, m: Move)
    requires CallInv(c) && CanMove(c, m)
    ensures CallInv(Moved(c, m))
  {
    match m
    case Spawn => MoveInv(c, Moved(c, m), c.next, Syncing);
    case Finish(i) => MoveInv(c, Moved(c, m), i, Sent);
    case Release(i) => MoveInv(c, Moved(c, m), i, Released);
    case Leave(i) => MoveInv(c, Moved(c, m), i, Done);
  }

  lemma StepInv(s: State, e: Event)
    requires Inv(s) && Enabled(s, e)
    ensures Inv(Step(s, e))
  {
    match e
    case TryRun(id, due) => if !s.busy { BeginInv(due); assert id in Step(s, e).calls; }
    case Go(id, move) => CallStepInv(s.calls[id], move); assert id in Step(s, e).calls;
    case Return(id) =>
  }

  lemma {:induction false} RunInv(s: State, run: seq<Event>)
    requires Inv(s) && CanRun(s, run)
    ensures Inv(After(s, run))
    decreases |run|
  {
    if run != [] {
      StepInv(s, run[0]);
      RunInv(Step(s, run[0]), run[1..]);
    }
  }

  lemma {:induction false} CountAll(p: Worker -> bool, ws: seq<Worker>)
    requires forall i :: 0 <= i < |ws| ==> p(ws[i])
    ensures Count(p, ws) == |ws|
    decreases |ws|
  {
    if ws != [] { CountAll(p, ws[..|ws| - 1]); }
  }

  /**
   * However calls and goroutines interleave: at most one call is past the lock, with at most five syncs past its
   * semaphore, and when it returns its results are exactly one per due id.
   */
  lemma FanOutSafe(run: seq<Event>, id: CallId)
    requires CanRun(IDLE, run) && id in After(IDLE, run).calls
    ensures var s, c := After(IDLE, run), After(IDLE, run).calls[id];
            && s.busy && s.calls.Keys == {id}
            && Count(HoldsToken, c.workers) <= 5
            && |c.results| <= |c.ids|
            && (AllDone(c) ==> NoDup(c.results) && |c.results| == |c.ids|
                               && forall i: nat :: i in c.results <==> i < |c.ids|)
  {
    RunInv(IDLE, run);
    var c := After(IDLE, run).calls[id];
    if AllDone(c) { CountAll(HasSent, c.workers); }
  }

  /** The next due id is dispatched as soon as fewer than five are in flight. */
  lemma DispatchedIff(c: Call)
    requires CallInv(c)
    ensures CanMove(c, Spawn) <==> c.next < |c.ids| && Count(HoldsToken, c.workers) < 5
  {
  }

  lemma {:induction false} IdsKept(s: State, run: seq<Event>, id: CallId)
    requires Inv(s) && CanRun(s, run) && id in s.calls && Return(id) !in run
    ensures id in After(s, run).calls && After(s, run).calls[id].ids == s.calls[id].ids
    decreases |run|
  {
    if run != [] {
      assert run[0] in run;
      StepInv(s, run[0]);
      IdsKept(Step(s, run[0]), run[1..], id);
    }
  }

  /**
   * A call that finds the lock free dispatches all the ids it found due, whatever else happens until it returns: it
   * returns with exactly one result for each of them.
   */
  lemma {:induction false} ReturnsAllDue(before: seq<Event>, id: CallId, due: seq<RepoId>, during: seq<Event>)
    requires CanRun(IDLE, before) && Enabled(After(IDLE, before), TryRun(id, due)) && !After(IDLE, before).busy
    requires CanRun(Step(After(IDLE, before), TryRun(id, due)), during) && Return(id) !in during
    ensures var s := After(Step(After(IDLE, before), TryRun(id, due)), during);
            && id in s.calls && s.calls[id].ids == due
            && (AllDone(s.calls[id]) ==>
                  NoDup(s.calls[id].results) && |s.calls[id].results| == |due|
                  && forall i: nat :: i in s.calls[id].results <==> i < |due|)
  {
    RunInv(IDLE, before);
    var s := Step(After(IDLE, before), TryRun(id, due));
    StepInv(After(IDLE, before), TryRun(id, due));
    IdsKept(s, during, id);
    RunInv(s, during);
    var c := After(s, during).calls[id];
    if AllDone(c) { CountAll(HasSent, c.workers); }
  }

  /** A goroutine that has a result can always send it: the channel has room for all of them. */
  lemma ResultChannelHasRoom(c: Call, i: nat)
    requires CallInv(c) && i < |c.workers| && c.workers[i].Syncing?
    ensures |c.results| < |c.ids|
  {
    CountUpdate(HasSent, c.workers, i, Done);
  }

  lemma {:induction false} SomeHolder(p: Worker -> bool, ws: seq<Worker>) returns (i: nat)
    requires Count(p, ws) > 0
    ensures i < |ws| && p(ws[i])
    decreases |ws|
  {
    if p(ws[|ws| - 1]) { i := |ws| - 1; } else { i := SomeHolder(p, ws[..|ws| - 1]); }
  }

  /** Until it is done a call can move, and every move leaves less to do. */
  lemma CallProgress(c: Call)
    requires CallInv(c)
    ensures !AllDone(c) ==> exists m :: CanMove(c, m)
    ensures forall m :: CanMove(c, m) ==> Work(Moved(c, m).workers) < Work(c.workers)
  {
    if !AllDone(c) {
      if c.next < |c.ids| {
        if c.tokens < MAX_INFLIGHT {
          assert CanMove(c, Spawn);
        } else {
          var i := SomeHolder(HoldsToken, c.workers);
          Unblocked(c, i);
        }
      } else {
        var i :| 0 <= i < |c.workers| && !c.workers[i].Done?;
        Unblocked(c, i);
      }
    }
    forall m | CanMove(c, m) ensures Work(Moved(c, m).workers) < Work(c.workers) {
      match m
      case Spawn => WorkUpdate(c.workers, c.next, Syncing);
      case Finish(i) => WorkUpdate(c.workers, i, Sent);
      case Release(i) => WorkUpdate(c.workers, i, Released);
      case Leave(i) => WorkUpdate(c.workers, i, Done);
    }
  }

  lemma Unblocked(c: Call, i: nat)
    requires CallInv(c) && i < |c.workers| && !c.workers[i].NotSpawned? && !c.workers[i].Done?
    ensures exists m :: CanMove(c, m)
  {
    match c.workers[i] {
      case Syncing =>
        ResultChannelHasRoom(c, i);
        assert CanMove(c, Finish(i));
      case Sent =>
        CountUpdate(HoldsToken, c.workers, i, Done);
        assert CanMove(c, Release(i));
      case Released => assert CanMove(c, Leave(i));
    }
  }

  /** The steps left for the call past the lock, its return among them. */
  function Left(s: State, id: CallId): nat {
    if id in s.calls then Work(s.calls[id].workers) + 1 else 0
  }

  /**
   * RunDue cannot deadlock and cannot go on for ever: while a call is past the lock it has a step to take, given that
   * syncs end, and every step that is not a new call leaves less to do. A call that finds the lock held changes
   * nothing; one that finds it free, as the last one left it, fans out.
   */
  lemma FanOutProgress(s: State, id: CallId)
    requires Inv(s) && id in s.calls
    ensures exists e: Event :: !e.TryRun? && Enabled(s, e)
    ensures forall e: Event :: !e.TryRun? && Enabled(s, e) ==> Left(Step(s, e), id) < Left(s, id)
    ensures forall e: Event :: e.TryRun? && Enabled(s, e) ==> Step(s, e) == s
    ensures forall e: Event :: e.Return? && Enabled(s, e) ==> Step(s, e) == IDLE
  {
    var c := s.calls[id];
    CallProgress(c);
    if AllDone(c) {
      assert Enabled(s, Return(id));
    } else {
      var m :| CanMove(c, m);
      assert Enabled(s, Go(id, m));
    }
  }
}
