/**
 * The agent task queue (internal/services/llm/queue.go): one Redis list per priority, any number of
 * workers, and a mutex around generation for providers that cannot run in parallel.
 *
 * A list is written as Redis shows it, head first: LPUSH adds in front, RPOP takes from the back.
 */
module AgentQueue {
  import opened Common

  type TaskId = nat
  type WorkerId = nat

  const CHAT := 1
  const PUSH := 2
  const SCHEDULE := 3

  /** agent_tasks.status. */
  datatype Status = Queued | Running | Completed | Failed

  /** Where a task is; `place` in the state below is history. */
  datatype Place = Inserted | Listed | Held(worker: WorkerId) | Finished

  datatype Row = Row(priority: int, status: Status, place: Place)

  /** Where a worker is in its loop. `SawNoChat` and `SawNoPush` are points inside one dequeue call. */
  datatype Worker =
    | Idle
    | SawNoChat
    | SawNoPush
    | Got(task: TaskId)
    | Marked(task: TaskId)
    | Generating(task: TaskId)
    | Recorded(task: TaskId)
    | Stopped

  /** `pushed` and `popped` are history: what was pushed to and popped from each list, in order. */
  datatype State = State(parallel: bool, tasks: map<TaskId, Row>, lists: map<int, seq<TaskId>>,
                         workers: seq<Worker>, mutex: Option<WorkerId>, stopping: bool,
                         pushed: map<int, seq<TaskId>>, popped: map<int, seq<TaskId>>)

  datatype Event =
    | Insert(id: TaskId, priority: int)
    | Push(id: TaskId)
    | Pop(w: WorkerId)
    | Timeout(w: WorkerId)
    | Mark(w: WorkerId)
    | Generate(w: WorkerId)
    | Record(w: WorkerId, ok: bool)
    | Return(w: WorkerId)
    | StopWorkers
    | Quit(w: WorkerId)

  function At(m: map<int, seq<TaskId>>, priority: int): seq<TaskId> {
    if priority in m then m[priority] else []
  }

  /** The task at the tail of a list, where RPOP takes. */
  function Back(list: seq<TaskId>): TaskId
    requires list != []
  {
    list[|list| - 1]
  }

  /** The list the worker's next pop looks at. */
  function Watched(w: Worker): int {
    match w
    case Idle => CHAT
    case SawNoChat => PUSH
    case _ => SCHEDULE
  }

  predicate Dequeuing(w: Worker) { w.Idle? || w.SawNoChat? || w.SawNoPush? }

  function TaskOf(w: Worker): Option<TaskId> {
    match w
    case Got(id) => Some(id)
    case Marked(id) => Some(id)
    case Generating(id) => Some(id)
    case _ => None
  }

  predicate Enabled(s: State, e: Event) {
    match e
    case Insert(id, _) => id !in s.tasks
    case Push(id) => id in s.tasks && s.tasks[id].place.Inserted?
    case Pop(w) =>
      && w < |s.workers| && Dequeuing(s.workers[w])
      && (s.workers[w].SawNoPush? ==> At(s.lists, SCHEDULE) != [])
    case Timeout(w) => w < |s.workers| && s.workers[w].SawNoPush? && At(s.lists, SCHEDULE) == []
    case Mark(w) => w < |s.workers| && s.workers[w].Got? && s.workers[w].task in s.tasks
    case Generate(w) => w < |s.workers| && s.workers[w].Marked? && (s.parallel || s.mutex.None?)
    case Record(w, _) => w < |s.workers| && s.workers[w].Generating? && s.workers[w].task in s.tasks
    case Return(w) => w < |s.workers| && s.workers[w].Recorded?
    case StopWorkers => true
    case Quit(w) => w < |s.workers| && s.workers[w].Idle? && s.stopping
  }

  function SetWorker(s: State, w: WorkerId, worker: Worker): State
    requires w < |s.workers|
  {
    s.(workers := s.workers[w := worker])
  }

  /** RPOP of the watched list; an empty list of priority 1 or 2 moves the worker on to the next. */
  function PopStep(s: State, w: WorkerId): State
    requires w < |s.workers|
  {
    var p := Watched(s.workers[w]);
    var list := At(s.lists, p);
    if list == [] then SetWorker(s, w, if s.workers[w].Idle? then SawNoChat else SawNoPush)
    else
      var id := list[|list| - 1];
      var s' := SetWorker(s, w, Got(id)).(lists := s.lists[p := list[..|list| - 1]],
                                          popped := s.popped[p := At(s.popped, p) + [id]]);
      if id in s.tasks then s'.(tasks := s.tasks[id := s.tasks[id].(place := Held(w))]) else s'
  }

  function Step(s: State, e: Event): State
    requires Enabled(s, e)
  {
    match e
    case Insert(id, priority) => s.(tasks := s.tasks[id := Row(priority, Queued, Inserted)])
    case Push(id) =>
      var p := s.tasks[id].priority;
      s.(lists := s.lists[p := [id] + At(s.lists, p)], pushed := s.pushed[p := At(s.pushed, p) + [id]],
         tasks := s.tasks[id := s.tasks[id].(place := Listed)])
    case Pop(w) => PopStep(s, w)
    case Timeout(w) => SetWorker(s, w, Idle)
    case Mark(w) =>
      var id := s.workers[w].task;
      SetWorker(s, w, Marked(id)).(tasks := s.tasks[id := s.tasks[id].(status := Running)])
    case Generate(w) =>
      SetWorker(s, w, Generating(s.workers[w].task)).(mutex := if s.parallel then s.mutex else Some(w))
    case Record(w, ok) =>
      var id := s.workers[w].task;
      SetWorker(s, w, Recorded(id)).(tasks :=
        s.tasks[id := s.tasks[id].(status := if ok then Completed else Failed, place := Finished)])
    case Return(w) => SetWorker(s, w, Idle).(mutex := if s.parallel then s.mutex else None)
    case StopWorkers => s.(stopping := true)
    case Quit(w) => SetWorker(s, w, Stopped)
  }

  predicate CanRun(s: State, run: seq<Event>)
    decreases |run|
  {
    run == [] || (Enabled(s, run[0]) && CanRun(Step(s, run[0]), run[1..]))
  }

  function After(s: State, run: seq<Event>): State
    requires CanRun(s, run)
    decreases |run|
  {
    if run == [] then s else After(Step(s, run[0]), run[1..])
  }

  predicate Initial(s: State) {
    && s.tasks == map[] && s.lists == map[] && s.pushed == map[] && s.popped == map[] && s.mutex == None
    && forall w :: 0 <= w < |s.workers| ==> s.workers[w] == Idle
  }

  // ---------------------------------------------------------------- invariant

  function Reversed(list: seq<TaskId>): seq<TaskId> {
    seq(|list|, i requires 0 <= i < |list| => list[|list| - 1 - i])
  }

  /** First in, first out: what was pushed is what was popped, then what is still listed, oldest first. */
  predicate FifoAt(s: State, p: int) {
    At(s.pushed, p) == At(s.popped, p) + Reversed(At(s.lists, p))
  }

  ghost predicate ListOk(s: State, p: int) {
    var list := At(s.lists, p);
    && NoDup(list)
    && forall i :: 0 <= i < |list| ==>
         list[i] in s.tasks && s.tasks[list[i]].priority == p && s.tasks[list[i]].place.Listed?
  }

  predicate RowOk(s: State, id: TaskId)
    requires id in s.tasks
  {
    var row := s.tasks[id];
    match row.place
    case Inserted => row.status == Queued
    case Listed => row.status == Queued && id in At(s.lists, row.priority)
    case Held(w) =>
      && w < |s.workers| && TaskOf(s.workers[w]) == Some(id) && CHAT <= row.priority <= SCHEDULE
      && row.status == (if s.workers[w].Got? then Queued else Running)
    case Finished => row.status == Completed || row.status == Failed
  }

  predicate WorkerOk(s: State, w: WorkerId)
    requires w < |s.workers|
  {
    && (TaskOf(s.workers[w]).Some? ==>
          TaskOf(s.workers[w]).value in s.tasks && s.tasks[TaskOf(s.workers[w]).value].place == Held(w))
    && (!s.parallel && (s.workers[w].Generating? || s.workers[w].Recorded?) ==> s.mutex == Some(w))
  }

  ghost predicate Inv(s: State) {
    && (forall p: int :: FifoAt(s, p))
    && (forall p: int :: ListOk(s, p))
    && (forall id :: id in s.tasks ==> RowOk(s, id))
    && (forall w: nat :: w < |s.workers| ==> WorkerOk(s, w))
  }

  lemma PushList(s: State, id: TaskId, q: int)
    requires Enabled(s, Push(id)) && FifoAt(s, q) && ListOk(s, q)
    ensures FifoAt(Step(s, Push(id)), q) && ListOk(Step(s, Push(id)), q)
  {
    var list := At(s.lists, q);
    assert Reversed([id] + list) == Reversed(list) + [id];
    assert id !in list;
  }

  lemma PushRow(s: State, id: TaskId, k: TaskId)
    requires Enabled(s, Push(id)) && k in s.tasks && RowOk(s, k)
    ensures RowOk(Step(s, Push(id)), k)
  {
    var list := At(s.lists, s.tasks[id].priority);
    assert id in [id] + list && (k in list ==> k in [id] + list);
  }

  lemma PushInv(s: State, id: TaskId)
    requires Inv(s) && Enabled(s, Push(id))
    ensures Inv(Step(s, Push(id)))
  {
    var s' := Step(s, Push(id));
    forall q: int ensures FifoAt(s', q) && ListOk(s', q) {
      assert FifoAt(s, q) && ListOk(s, q);
      PushList(s, id, q);
    }
    forall k | k in s'.tasks ensures RowOk(s', k) {
      assert RowOk(s, k);
      PushRow(s, id, k);
    }
    forall w: nat | w < |s.workers| ensures WorkerOk(s', w) { assert WorkerOk(s, w); }
  }

  lemma OldestOut(pushed: seq<TaskId>, popped: seq<TaskId>, list: seq<TaskId>)
    requires list != [] && pushed == popped + Reversed(list)
    ensures pushed == (popped + [list[|list| - 1]]) + Reversed(list[..|list| - 1])
  {
    var rest, id := list[..|list| - 1], list[|list| - 1];
    assert Reversed(list) == [id] + Reversed(rest);
  }

  predicate CanTake(s: State, w: WorkerId) {
    w < |s.workers| && Dequeuing(s.workers[w]) && At(s.lists, Watched(s.workers[w])) != []
  }

  /** The task at the end of the watched list. */
  function Oldest(s: State, w: WorkerId): TaskId
    requires CanTake(s, w)
  {
    var list := At(s.lists, Watched(s.workers[w]));
    list[|list| - 1]
  }

  lemma TakeMoves(s: State, w: WorkerId, q: int)
    requires CanTake(s, w)
    ensures var s', list := PopStep(s, w), At(s.lists, q);
            && At(s'.pushed, q) == At(s.pushed, q)
            && (q == Watched(s.workers[w]) ==>
                  At(s'.lists, q) == list[..|list| - 1] && At(s'.popped, q) == At(s.popped, q) + [list[|list| - 1]])
            && (q != Watched(s.workers[w]) ==> At(s'.lists, q) == list && At(s'.popped, q) == At(s.popped, q))
  {
  }

  lemma TakeFifo(s: State, w: WorkerId, q: int)
    requires CanTake(s, w) && FifoAt(s, q)
    ensures FifoAt(PopStep(s, w), q)
  {
    TakeMoves(s, w, q);
    if q == Watched(s.workers[w]) { OldestOut(At(s.pushed, q), At(s.popped, q), At(s.lists, q)); }
  }

  lemma TakeRow(s: State, w: WorkerId, k: TaskId)
    requires CanTake(s, w) && ListOk(s, Watched(s.workers[w])) && k in s.tasks && RowOk(s, k) && k != Oldest(s, w)
    ensures k in PopStep(s, w).tasks && RowOk(PopStep(s, w), k)
  {
    var list := At(s.lists, Watched(s.workers[w]));
    if k in list {
      var i :| 0 <= i < |list| && list[i] == k;
      assert list[..|list| - 1][i] == k;
    }
  }

  lemma TakeOldest(s: State, w: WorkerId)
    requires CanTake(s, w) && ListOk(s, Watched(s.workers[w]))
    requires Oldest(s, w) in s.tasks && RowOk(s, Oldest(s, w))
    ensures Oldest(s, w) in PopStep(s, w).tasks && RowOk(PopStep(s, w), Oldest(s, w))
  {
  }

  lemma TakeList(s: State, w: WorkerId, q: int)
    requires CanTake(s, w) && ListOk(s, Watched(s.workers[w])) && ListOk(s, q)
    ensures ListOk(PopStep(s, w), q)
  {
    var id := Oldest(s, w);
    assert forall i :: 0 <= i < |At(PopStep(s, w).lists, q)| ==> At(s.lists, q)[i] != id;
  }

  lemma TakeInv(s: State, w: WorkerId)
    requires Inv(s) && CanTake(s, w)
    ensures Inv(PopStep(s, w))
  {
    var s' := PopStep(s, w);
    assert ListOk(s, Watched(s.workers[w])) && RowOk(s, Oldest(s, w));
    forall q: int ensures FifoAt(s', q) && ListOk(s', q) {
      assert FifoAt(s, q) && ListOk(s, q);
      TakeFifo(s, w, q);
      TakeList(s, w, q);
    }
    TakeOldest(s, w);
    forall k | k in s'.tasks ensures RowOk(s', k) {
      if k != Oldest(s, w) {
        assert RowOk(s, k);
        TakeRow(s, w, k);
      }
    }
    forall v: nat | v < |s.workers| ensures WorkerOk(s', v) { assert WorkerOk(s, v); }
  }

  predicate IsWork(e: Event) { e.Mark? || e.Generate? || e.Record? || e.Return? || e.Quit? }

  /** A step in one worker that leaves the lists alone. */
  lemma WorkInv(s: State, e: Event)
    requires Inv(s) && Enabled(s, e) && IsWork(e)
    ensures Inv(Step(s, e))
  {
    var s' := Step(s, e);
    assert WorkerOk(s, e.w);
    forall p: int ensures FifoAt(s', p) && ListOk(s', p) {
      assert FifoAt(s, p) && ListOk(s, p);
      WorkList(s, e, p);
    }
    forall k | k in s'.tasks ensures RowOk(s', k) {
      assert RowOk(s, k);
      WorkRow(s, e, k);
    }
    forall v: nat | v < |s.workers| ensures WorkerOk(s', v) {
      assert WorkerOk(s, v);
      WorkWorker(s, e, v);
    }
  }

  lemma WorkList(s: State, e: Event, p: int)
    requires Enabled(s, e) && IsWork(e) && WorkerOk(s, e.w) && FifoAt(s, p) && ListOk(s, p)
    ensures FifoAt(Step(s, e), p) && ListOk(Step(s, e), p)
  {
  }

  lemma WorkRow(s: State, e: Event, k: TaskId)
    requires Enabled(s, e) && IsWork(e) && WorkerOk(s, e.w) && k in s.tasks && RowOk(s, k)
    ensures RowOk(Step(s, e), k)
  {
  }

  lemma WorkWorker(s: State, e: Event, v: WorkerId)
    requires Enabled(s, e) && IsWork(e) && WorkerOk(s, e.w) && v < |s.workers| && WorkerOk(s, v)
    ensures v < |Step(s, e).workers| && WorkerOk(Step(s, e), v)
  {
  }

  /** A worker moving on inside dequeue, having found a list empty. */
  lemma MoveOnInv(s: State, w: WorkerId, next: Worker)
    requires Inv(s) && w < |s.workers| && Dequeuing(s.workers[w]) && Dequeuing(next)
    ensures Inv(SetWorker(s, w, next))
  {
    var s' := SetWorker(s, w, next);
    forall p: int ensures FifoAt(s', p) && ListOk(s', p) { assert FifoAt(s, p) && ListOk(s, p); }
    forall k | k in s'.tasks ensures RowOk(s', k) { assert RowOk(s, k); }
    forall v: nat | v < |s.workers| ensures WorkerOk(s', v) { assert WorkerOk(s, v); }
  }

  lemma PopInv(s: State, w: WorkerId)
    requires Inv(s) && Enabled(s, Pop(w))
    ensures Inv(Step(s, Pop(w)))
  {
    if At(s.lists, Watched(s.workers[w])) != [] {
      TakeInv(s, w);
    } else {
      MoveOnInv(s, w, if s.workers[w].Idle? then SawNoChat else SawNoPush);
    }
  }

  lemma StepInv(s: State, e: Event)
    requires Inv(s) && Enabled(s, e)
    ensures Inv(Step(s, e))
  {
    match e
    case Push(id) => PushInv(s, id);
    case Pop(w) => PopInv(s, w);
    case Timeout(w) => MoveOnInv(s, w, Idle);
    case Insert(id, _) => InsertInv(s, e);
    case StopWorkers => InsertInv(s, e);
    case _ => WorkInv(s, e);
  }

  lemma InsertInv(s: State, e: Event)
    requires Inv(s) && Enabled(s, e) && (e.Insert? || e.StopWorkers?)
    ensures Inv(Step(s, e))
  {
    var s' := Step(s, e);
    forall p: int ensures FifoAt(s', p) && ListOk(s', p) { assert FifoAt(s, p) && ListOk(s, p); }
    forall k | k in s'.tasks ensures RowOk(s', k) { if k in s.tasks { assert RowOk(s, k); } }
    forall v: nat | v < |s.workers| ensures WorkerOk(s', v) { assert WorkerOk(s, v); }
  }

  lemma {:induction false} RunInv(s: State, run: seq<Event>)
    requires Inv(s) && CanRun(s, run)
    ensures Inv(After(s, run))
    decreases |run|
  {
    if run != [] {
      StepInv(s, run[0]);
      RunInv(Step(s, run[0]), run[1..]);
    }
  }

  lemma InitialInv(s: State)
    requires Initial(s)
    ensures Inv(s)
  {
  }

  // ---------------------------------------------------------------- guarantees

  function Holders(s: State, id: TaskId): set<WorkerId> {
    set w | 0 <= w < |s.workers| && TaskOf(s.workers[w]) == Some(id)
  }

  predicate IsListed(s: State, id: TaskId)
    requires id in s.tasks
  {
    id in At(s.lists, s.tasks[id].priority)
  }

  /**
   * In every interleaving each task is in exactly one place: being enqueued, on the list of its own
   * priority (once, and on no other list), with exactly one worker, or finished; and its database
   * status says so.
   */
  lemma OnePlace(s: State, run: seq<Event>, id: TaskId)
    requires Initial(s) && CanRun(s, run) && id in After(s, run).tasks
    ensures var t := After(s, run);
            var row := t.tasks[id];
            && (IsListed(t, id) <==> row.place.Listed?)
            && (forall p: int :: NoDup(At(t.lists, p)) && (id in At(t.lists, p) ==> p == row.priority))
            && (row.place.Held? ==> Holders(t, id) == {row.place.worker})
            && (!row.place.Held? ==> Holders(t, id) == {})
            && (row.place.Finished? <==> row.status == Completed || row.status == Failed)
            && (row.place.Inserted? || row.place.Listed? ==> row.status == Queued)
  {
    InitialInv(s);
    RunInv(s, run);
    var t := After(s, run);
    assert RowOk(t, id);
    forall p: int ensures NoDup(At(t.lists, p)) && (id in At(t.lists, p) ==> p == t.tasks[id].priority) {
      assert ListOk(t, p);
    }
    if IsListed(t, id) { assert ListOk(t, t.tasks[id].priority); }
    forall w | w in Holders(t, id) ensures t.tasks[id].place == Held(w) { assert WorkerOk(t, w); }
    if t.tasks[id].place.Held? { assert t.tasks[id].place.worker in Holders(t, id); }
  }

  /** Tasks of one priority are taken in the order they were pushed, by whichever workers. */
  lemma PoppedInPushOrder(s: State, run: seq<Event>, p: int)
    requires Initial(s) && CanRun(s, run)
    ensures At(After(s, run).popped, p) <= At(After(s, run).pushed, p)
  {
    InitialInv(s);
    RunInv(s, run);
    assert FifoAt(After(s, run), p);
  }

  lemma {:induction false} PriorityKept(s: State, run: seq<Event>, id: TaskId)
    requires CanRun(s, run) && id in s.tasks
    ensures id in After(s, run).tasks && After(s, run).tasks[id].priority == s.tasks[id].priority
    decreases |run|
  {
    if run != [] {
      PriorityStep(s, run[0], id);
      PriorityKept(Step(s, run[0]), run[1..], id);
    }
  }

  lemma PriorityStep(s: State, e: Event, id: TaskId)
    requires Enabled(s, e) && id in s.tasks
    ensures id in Step(s, e).tasks && Step(s, e).tasks[id].priority == s.tasks[id].priority
  {
  }

  /** A task's priority is the one it was enqueued with. */
  lemma {:induction false} PriorityAsked(s: State, run: seq<Event>, id: TaskId, priority: int)
    requires CanRun(s, run) && Insert(id, priority) in run
    ensures id in After(s, run).tasks && After(s, run).tasks[id].priority == priority
    decreases |run|
  {
    if run[0] == Insert(id, priority) {
      PriorityKept(Step(s, run[0]), run[1..], id);
    } else {
      assert Insert(id, priority) in run[1..];
      PriorityAsked(Step(s, run[0]), run[1..], id, priority);
    }
  }

  lemma {:induction false} WasInserted(s: State, run: seq<Event>, id: TaskId)
    requires CanRun(s, run) && id !in s.tasks && id in After(s, run).tasks
    ensures Insert(id, After(s, run).tasks[id].priority) in run
    decreases |run|
  {
    if run[0].Insert? && run[0].id == id {
      PriorityKept(Step(s, run[0]), run[1..], id);
    } else {
      NotYetThere(s, run[0], id);
      WasInserted(Step(s, run[0]), run[1..], id);
    }
  }

  lemma NotYetThere(s: State, e: Event, id: TaskId)
    requires Enabled(s, e) && id !in s.tasks && !(e.Insert? && e.id == id)
    ensures id !in Step(s, e).tasks
  {
  }

  /** A task enqueued with a priority outside 1 to 3 is accepted, but no worker ever takes it. */
  lemma UnknownPriorityNeverRuns(s: State, run: seq<Event>, id: TaskId, priority: int)
    requires Initial(s) && CanRun(s, run) && Insert(id, priority) in run
    requires priority < 1 || priority > 3
    ensures id in After(s, run).tasks && !After(s, run).tasks[id].place.Held?
  {
    InitialInv(s);
    RunInv(s, run);
    PriorityAsked(s, run, id, priority);
    assert RowOk(After(s, run), id);
  }

  /** With a provider that cannot run in parallel, at most one worker is generating. */
  lemma OneGenerateAtATime(s: State, run: seq<Event>, v: WorkerId, w: WorkerId)
    requires Initial(s) && !s.parallel && CanRun(s, run)
    requires v < |After(s, run).workers| && w < |After(s, run).workers|
    requires After(s, run).workers[v].Generating? && After(s, run).workers[w].Generating?
    ensures v == w
  {
    InitialInv(s);
    RunInv(s, run);
    SameProvider(s, run);
    assert WorkerOk(After(s, run), v) && WorkerOk(After(s, run), w);
  }

  lemma SameProviderStep(s: State, e: Event)
    requires Enabled(s, e)
    ensures Step(s, e).parallel == s.parallel && |Step(s, e).workers| == |s.workers|
  {
    match e
    case Pop(w) => PopWorkers(s, w);
    case Insert(_, _) => ServiceWorkers(s, e);
    case Push(_) => ServiceWorkers(s, e);
    case StopWorkers => ServiceWorkers(s, e);
    case _ => OwnWorker(s, e);
  }

  /** Which workers a step changes, event by event. */
  lemma ServiceWorkers(s: State, e: Event)
    requires Enabled(s, e) && (e.Insert? || e.Push? || e.StopWorkers?)
    ensures Step(s, e).workers == s.workers && Step(s, e).parallel == s.parallel
  {
  }

  lemma OwnWorker(s: State, e: Event)
    requires Enabled(s, e) && !(e.Insert? || e.Push? || e.StopWorkers? || e.Pop?)
    ensures Step(s, e).workers == s.workers[e.w := WorkerAfter(s.workers[e.w], e)] && Step(s, e).parallel == s.parallel
  {
  }

  lemma PopWorkers(s: State, w: WorkerId)
    requires Enabled(s, Pop(w))
    ensures var list := At(s.lists, Watched(s.workers[w]));
            var next := if list != [] then Got(list[|list| - 1])
                        else if s.workers[w].Idle? then SawNoChat else SawNoPush;
            Step(s, Pop(w)).workers == s.workers[w := next] && Step(s, Pop(w)).parallel == s.parallel
  {
  }

  /** Where a step of its own, other than a pop, takes a worker. */
  function WorkerAfter(w: Worker, e: Event): Worker {
    match e
    case Mark(_) => if w.Got? then Marked(w.task) else w
    case Generate(_) => if w.Marked? then Generating(w.task) else w
    case Record(_, _) => if w.Generating? then Recorded(w.task) else w
    case Quit(_) => Stopped
    case _ => Idle
  }

  lemma {:induction false} SameProvider(s: State, run: seq<Event>)
    requires CanRun(s, run)
    ensures After(s, run).parallel == s.parallel && |After(s, run).workers| == |s.workers|
    decreases |run|
  {
    if run != [] {
      SameProviderStep(s, run[0]);
      SameProvider(Step(s, run[0]), run[1..]);
    }
  }

  // ---------------------------------------------------------------- the order of priorities

  /** The state after the first `n` events of `run`. */
  function StateAt(s: State, run: seq<Event>, n: nat): State
    requires CanRun(s, run) && n <= |run|
    decreases n
  {
    if n == 0 then s else StateAt(Step(s, run[0]), run[1..], n - 1)
  }

  lemma {:induction false} StateAtStep(s: State, run: seq<Event>, n: nat)
    requires CanRun(s, run) && n < |run|
    ensures Enabled(StateAt(s, run, n), run[n]) && StateAt(s, run, n + 1) == Step(StateAt(s, run, n), run[n])
    ensures |StateAt(s, run, n).workers| == |s.workers|
    decreases n
  {
    SameProviderStep(s, run[0]);
    if n > 0 { StateAtStep(Step(s, run[0]), run[1..], n - 1); }
  }

  /** Inside a dequeue call that has found nothing so far. */
  predicate Looking(w: Worker) { w.SawNoChat? || w.SawNoPush? }

  /**
   * At event `i`, worker `w` looked at list `q` and it was empty; up to event `n` the worker has been inside that
   * dequeue call.
   */
  ghost predicate SawEmpty(s: State, run: seq<Event>, i: nat, n: nat, w: WorkerId, q: int)
    requires CanRun(s, run) && n <= |run|
  {
    && i < n && run[i] == Pop(w)
    && (var t := StateAt(s, run, i);
        w < |t.workers| && Dequeuing(t.workers[w]) && Watched(t.workers[w]) == q && At(t.lists, q) == [])
    && forall j :: i < j <= n ==> w < |StateAt(s, run, j).workers| && Looking(StateAt(s, run, j).workers[w])
  }

  ghost predicate Seen(s: State, run: seq<Event>, n: nat, w: WorkerId, q: int)
    requires CanRun(s, run) && n <= |run|
  {
    exists i :: SawEmpty(s, run, i, n, w, q)
  }

  /** How a worker comes to be looking at a lower list. */
  lemma LookStep(s: State, e: Event, w: WorkerId)
    requires Enabled(s, e) && w < |s.workers|
    ensures |Step(s, e).workers| == |s.workers|
    ensures Looking(Step(s, e).workers[w]) ==>
              || Step(s, e).workers[w] == s.workers[w]
              || (&& e == Pop(w) && Dequeuing(s.workers[w]) && At(s.lists, Watched(s.workers[w])) == []
                  && Step(s, e).workers[w] == if s.workers[w].Idle? then SawNoChat else SawNoPush)
  {
    match e
    case Pop(v) => PopWorkers(s, v);
    case Insert(_, _) => ServiceWorkers(s, e);
    case Push(_) => ServiceWorkers(s, e);
    case StopWorkers => ServiceWorkers(s, e);
    case _ => OwnWorker(s, e);
  }

  lemma StillSeen(s: State, run: seq<Event>, n: nat, w: WorkerId, q: int)
    requires CanRun(s, run) && n < |run| && Seen(s, run, n, w, q)
    requires w < |StateAt(s, run, n + 1).workers| && Looking(StateAt(s, run, n + 1).workers[w])
    ensures Seen(s, run, n + 1, w, q)
  {
    var i :| SawEmpty(s, run, i, n, w, q);
    assert SawEmpty(s, run, i, n + 1, w, q);
  }

  lemma JustSeen(s: State, run: seq<Event>, n: nat, w: WorkerId)
    requires CanRun(s, run) && n < |run| && run[n] == Pop(w)
    requires var t := StateAt(s, run, n);
             w < |t.workers| && Dequeuing(t.workers[w]) && At(t.lists, Watched(t.workers[w])) == []
    requires w < |StateAt(s, run, n + 1).workers| && Looking(StateAt(s, run, n + 1).workers[w])
    ensures Seen(s, run, n + 1, w, Watched(StateAt(s, run, n).workers[w]))
  {
    assert SawEmpty(s, run, n, n + 1, w, Watched(StateAt(s, run, n).workers[w]));
  }

  lemma {:induction false} LookingSawEmpty(s: State, run: seq<Event>, n: nat, w: WorkerId, q: int)
    requires CanRun(s, run) && n <= |run| && w < |s.workers| && s.workers[w].Idle?
    requires w < |StateAt(s, run, n).workers|
    requires Looking(StateAt(s, run, n).workers[w]) && CHAT <= q < Watched(StateAt(s, run, n).workers[w])
    ensures Seen(s, run, n, w, q)
    decreases n
  {
    if n > 0 {
      StateAtStep(s, run, n - 1);
      var t := StateAt(s, run, n - 1);
      LookStep(t, run[n - 1], w);
      if q < Watched(t.workers[w]) {
        LookingSawEmpty(s, run, n - 1, w, q);
        StillSeen(s, run, n - 1, w, q);
      } else {
        JustSeen(s, run, n - 1, w);
      }
    }
  }

  /**
   * In every interleaving, whenever a worker takes a task, which was enqueued with priority p: it is the one pushed
   * first of those still on list p, and for each higher priority q the same dequeue call had looked at list q before,
   * at a moment when it was empty.
   */
  lemma {:induction false} HigherListsSeenEmpty(s: State, run: seq<Event>, n: nat, w: WorkerId, id: TaskId, p: int)
    requires Initial(s) && CanRun(s, run) && n < |run| && run[n] == Pop(w) && w < |s.workers|
    requires w < |StateAt(s, run, n + 1).workers| && StateAt(s, run, n + 1).workers[w] == Got(id)
    requires Insert(id, p) in run
    ensures var t := StateAt(s, run, n);
            && 1 <= p <= 3
            && |At(t.popped, p)| < |At(t.pushed, p)| && id == At(t.pushed, p)[|At(t.popped, p)|]
            && At(t.lists, p) != [] && id == Back(At(t.lists, p))
            && forall q :: 1 <= q < p ==> Seen(s, run, n, w, q)
  {
    StateAtStep(s, run, n);
    StateAtIsAfter(s, run, n);
    InitialInv(s);
    RunInv(s, run[..n]);
    var t := StateAt(s, run, n);
    TakesOldest(t, w);
    assert ListOk(t, Watched(t.workers[w]));
    WasInserted(s, run[..n], id);
    assert Insert(id, t.tasks[id].priority) in run;
    PriorityAsked(s, run, id, t.tasks[id].priority);
    PriorityAsked(s, run, id, p);
    forall q | 1 <= q < p ensures Seen(s, run, n, w, q) {
      LookingSawEmpty(s, run, n, w, q);
    }
  }

  lemma {:induction false} StateAtIsAfter(s: State, run: seq<Event>, n: nat)
    requires CanRun(s, run) && n <= |run|
    ensures CanRun(s, run[..n]) && StateAt(s, run, n) == After(s, run[..n])
    decreases n
  {
    if n > 0 {
      assert run[..n][1..] == run[1..][..n - 1];
      StateAtIsAfter(Step(s, run[0]), run[1..], n - 1);
    }
  }

  /** A worker that gets a task gets the one at the tail of the list it looked at, the one pushed first. */
  lemma TakesOldest(s: State, w: WorkerId)
    requires Inv(s) && Enabled(s, Pop(w))
    ensures w < |Step(s, Pop(w)).workers|
    ensures var p := Watched(s.workers[w]);
            var pushed, popped := At(s.pushed, p), At(s.popped, p);
            && (Step(s, Pop(w)).workers[w].Got? <==> At(s.lists, p) != [])
            && (At(s.lists, p) != [] ==>
                  |popped| < |pushed| && Back(At(s.lists, p)) == pushed[|popped|]
                  && Step(s, Pop(w)).workers[w] == Got(pushed[|popped|]))
  {
    PopWorkers(s, w);
    assert FifoAt(s, Watched(s.workers[w]));
  }

  // ---------------------------------------------------------------- short runs

  lemma RunCons(s: State, e: Event, rest: seq<Event>)
    requires Enabled(s, e) && CanRun(Step(s, e), rest)
    ensures CanRun(s, [e] + rest) && After(s, [e] + rest) == After(Step(s, e), rest)
  {
    assert ([e] + rest)[1..] == rest;
  }

  lemma RunOne(s: State, e: Event)
    requires Enabled(s, e)
    ensures CanRun(s, [e] + []) && After(s, [e] + []) == Step(s, e)
  {
    assert CanRun(Step(s, e), []);
    RunCons(s, e, []);
  }

  lemma RunTwo(s: State, e1: Event, e2: Event)
    requires Enabled(s, e1) && Enabled(Step(s, e1), e2)
    ensures CanRun(s, [e1] + ([e2] + [])) && After(s, [e1] + ([e2] + [])) == Step(Step(s, e1), e2)
  {
    RunOne(Step(s, e1), e2);
    RunCons(s, e1, [e2] + []);
  }

  lemma RunThree(s: State, e1: Event, e2: Event, e3: Event)
    requires Enabled(s, e1) && Enabled(Step(s, e1), e2) && Enabled(Step(Step(s, e1), e2), e3)
    ensures CanRun(s, [e1] + ([e2] + ([e3] + [])))
    ensures After(s, [e1] + ([e2] + ([e3] + []))) == Step(Step(Step(s, e1), e2), e3)
  {
    RunTwo(Step(s, e1), e2, e3);
    RunCons(s, e1, [e2] + ([e3] + []));
  }

  // ---------------------------------------------------------------- which listed tasks can run

  /** Workers leave only when told to, and the mutex is held by the worker whose generation it guards. */
  ghost predicate LiveInv(s: State) {
    && (forall w :: 0 <= w < |s.workers| && s.workers[w].Stopped? ==> s.stopping)
    && (s.mutex.Some? ==>
          !s.parallel && s.mutex.value < |s.workers|
          && (s.workers[s.mutex.value].Generating? || s.workers[s.mutex.value].Recorded?))
  }

  lemma LiveStep(s: State, e: Event)
    requires LiveInv(s) && Enabled(s, e)
    ensures LiveInv(Step(s, e))
  {
    match e
    case Pop(w) => LivePop(s, w);
    case Insert(_, _) =>
    case Push(_) =>
    case StopWorkers =>
    case _ => LiveWork(s, e);
  }

  lemma LivePop(s: State, w: WorkerId)
    requires LiveInv(s) && Enabled(s, Pop(w))
    ensures LiveInv(Step(s, Pop(w)))
  {
    PopWorkers(s, w);
  }

  lemma LiveWork(s: State, e: Event)
    requires LiveInv(s) && Enabled(s, e) && !(e.Insert? || e.Push? || e.StopWorkers? || e.Pop?)
    ensures LiveInv(Step(s, e))
  {
    OwnWorker(s, e);
  }

  lemma {:induction false} LiveRun(s: State, run: seq<Event>)
    requires LiveInv(s) && CanRun(s, run)
    ensures LiveInv(After(s, run))
    decreases |run|
  {
    if run != [] {
      LiveStep(s, run[0]);
      LiveRun(Step(s, run[0]), run[1..]);
    }
  }

  predicate Awaits(s: State, id: TaskId) {
    id in s.tasks && s.tasks[id].place.Listed? && CHAT <= s.tasks[id].priority <= SCHEDULE
  }

  /** Worker `w` may go on: it has not stopped, and the mutex is free or its own. */
  ghost predicate MayGoOn(s: State, w: WorkerId) {
    Inv(s) && LiveInv(s) && w < |s.workers| && !s.workers[w].Stopped? && (s.mutex.None? || s.mutex == Some(w))
  }

  /** The next step of a worker that has a task. */
  function NextOf(w: WorkerId, worker: Worker): Event
    requires !Dequeuing(worker) && !worker.Stopped?
  {
    match worker
    case Got(_) => Mark(w)
    case Marked(_) => Generate(w)
    case Generating(_) => Record(w, true)
    case Recorded(_) => Return(w)
  }

  function StepsLeft(worker: Worker): nat {
    match worker
    case Got(_) => 4
    case Marked(_) => 3
    case Generating(_) => 2
    case Recorded(_) => 1
    case _ => 0
  }

  lemma GoOn(s: State, w: WorkerId, id: TaskId)
    requires MayGoOn(s, w) && !Dequeuing(s.workers[w]) && Awaits(s, id)
    ensures var e := NextOf(w, s.workers[w]);
            && Enabled(s, e) && MayGoOn(Step(s, e), w) && Awaits(Step(s, e), id)
            && Step(s, e).lists == s.lists && StepsLeft(Step(s, e).workers[w]) < StepsLeft(s.workers[w])
            && (Dequeuing(Step(s, e).workers[w]) ==> Step(s, e).mutex.None?)
  {
    var e := NextOf(w, s.workers[w]);
    assert WorkerOk(s, w);
    NextMoves(s, w, id);
    StepInv(s, e);
    LiveStep(s, e);
  }

  lemma NextMoves(s: State, w: WorkerId, id: TaskId)
    requires w < |s.workers| && WorkerOk(s, w) && !Dequeuing(s.workers[w]) && !s.workers[w].Stopped? && Awaits(s, id)
    requires s.mutex.None? || (!s.parallel && s.mutex == Some(w))
    requires s.workers[w].Marked? ==> s.mutex.None?
    ensures var e := NextOf(w, s.workers[w]);
            && Enabled(s, e) && Awaits(Step(s, e), id)
            && Step(s, e).lists == s.lists && |Step(s, e).workers| == |s.workers|
            && var worker, mutex := Step(s, e).workers[w], Step(s, e).mutex;
               StepsLeft(worker) < StepsLeft(s.workers[w]) && !worker.Stopped?
               && (mutex.None? || mutex == Some(w)) && (Dequeuing(worker) ==> mutex.None?)
  {
    match s.workers[w]
    case Got(_) =>
    case Marked(_) =>
    case Generating(_) =>
    case Recorded(_) =>
  }

  /** A worker finishes the task it has. */
  lemma {:induction false} FinishUp(s: State, w: WorkerId, id: TaskId) returns (run: seq<Event>)
    requires MayGoOn(s, w) && Awaits(s, id)
    ensures CanRun(s, run)
    ensures var t := After(s, run);
            MayGoOn(t, w) && Awaits(t, id) && t.lists == s.lists && Dequeuing(t.workers[w]) && t.mutex.None?
    decreases StepsLeft(s.workers[w])
  {
    if Dequeuing(s.workers[w]) {
      run := [];
    } else {
      var e := NextOf(w, s.workers[w]);
      GoOn(s, w, id);
      var rest := FinishUp(Step(s, e), w, id);
      RunCons(s, e, rest);
      run := [e] + rest;
    }
  }

  function Backlog(s: State): nat {
    |At(s.lists, CHAT)| + |At(s.lists, PUSH)| + |At(s.lists, SCHEDULE)|
  }

  /** How many empty lists a worker looks at before one that is not. */
  function LooksLeft(s: State, w: Worker): nat {
    var fromIdle := if At(s.lists, CHAT) != [] then 0 else if At(s.lists, PUSH) != [] then 1 else 2;
    var fromNoPush := if At(s.lists, SCHEDULE) != [] then 0 else 1 + fromIdle;
    match w
    case Idle => fromIdle
    case SawNoChat => if At(s.lists, PUSH) != [] then 0 else 1 + fromNoPush
    case _ => fromNoPush
  }

  function LookOn(w: WorkerId, worker: Worker): Event {
    if worker.SawNoPush? then Timeout(w) else Pop(w)
  }

  lemma LookFurther(s: State, w: WorkerId, id: TaskId)
    requires MayGoOn(s, w) && Awaits(s, id) && Dequeuing(s.workers[w]) && At(s.lists, Watched(s.workers[w])) == []
    ensures var e := LookOn(w, s.workers[w]);
            && Enabled(s, e) && MayGoOn(Step(s, e), w) && Awaits(Step(s, e), id) && Dequeuing(Step(s, e).workers[w])
            && Step(s, e).lists == s.lists && LooksLeft(Step(s, e), Step(s, e).workers[w]) < LooksLeft(s, s.workers[w])
            && Step(s, e).mutex == s.mutex
  {
    var e := LookOn(w, s.workers[w]);
    assert RowOk(s, id);
    StepInv(s, e);
    LiveStep(s, e);
  }

  lemma TakeOne(s: State, w: WorkerId, id: TaskId)
    requires MayGoOn(s, w) && Awaits(s, id) && CanTake(s, w)
    ensures Enabled(s, Pop(w)) && Backlog(Step(s, Pop(w))) < Backlog(s) && MayGoOn(Step(s, Pop(w)), w)
    ensures id in Step(s, Pop(w)).tasks
    ensures if id == Oldest(s, w) then Step(s, Pop(w)).tasks[id].place == Held(w) else Awaits(Step(s, Pop(w)), id)
  {
    StepInv(s, Pop(w));
    LiveStep(s, Pop(w));
    TakeMoves(s, w, CHAT);
    TakeMoves(s, w, PUSH);
    TakeMoves(s, w, SCHEDULE);
  }

  /** One worker alone works through the lists until it holds the task. */
  lemma {:induction false} BringToHeld(s: State, w: WorkerId, id: TaskId) returns (run: seq<Event>)
    requires MayGoOn(s, w) && Awaits(s, id) && Dequeuing(s.workers[w])
    ensures CanRun(s, run) && id in After(s, run).tasks && After(s, run).tasks[id].place.Held?
    decreases Backlog(s), LooksLeft(s, s.workers[w]), 1
  {
    if At(s.lists, Watched(s.workers[w])) == [] {
      var e := LookOn(w, s.workers[w]);
      LookFurther(s, w, id);
      var rest := BringToHeld(Step(s, e), w, id);
      RunCons(s, e, rest);
      run := [e] + rest;
    } else {
      TakeOne(s, w, id);
      if id == Oldest(s, w) {
        RunOne(s, Pop(w));
        run := [Pop(w)] + [];
      } else {
        run := HeldAfterOther(s, w, id);
      }
    }
  }

  lemma {:induction false} HeldAfterOther(s: State, w: WorkerId, id: TaskId) returns (run: seq<Event>)
    requires MayGoOn(s, w) && Awaits(s, id) && CanTake(s, w) && id != Oldest(s, w)
    ensures CanRun(s, run) && id in After(s, run).tasks && After(s, run).tasks[id].place.Held?
    decreases Backlog(s), 0, 0
  {
    TakeOne(s, w, id);
    var s1 := Step(s, Pop(w));
    var finish := FinishUp(s1, w, id);
    var rest := BringToHeld(After(s1, finish), w, id);
    RunAppend(s1, finish, rest);
    RunCons(s, Pop(w), finish + rest);
    run := [Pop(w)] + (finish + rest);
  }

  lemma {:induction false} RunAppend(s: State, first: seq<Event>, second: seq<Event>)
    requires CanRun(s, first) && CanRun(After(s, first), second)
    ensures CanRun(s, first + second) && After(s, first + second) == After(After(s, first), second)
    decreases |first|
  {
    if first == [] {
      assert first + second == second;
    } else {
      assert (first + second)[1..] == first[1..] + second;
      RunAppend(Step(s, first[0]), first[1..], second);
    }
  }

  /**
   * From any state of any run in which the workers have not been told to stop, a listed task can still reach a worker
   * if and only if its priority is one of the three.
   */
  lemma {:induction false} ListedRunsIff(s: State, run: seq<Event>, id: TaskId)
    requires Initial(s) && CanRun(s, run) && s.workers != [] && !s.stopping && !After(s, run).stopping
    requires id in After(s, run).tasks && After(s, run).tasks[id].place.Listed?
    ensures 1 <= After(s, run).tasks[id].priority <= 3 <==>
              exists more :: CanRun(After(s, run), more) && id in After(After(s, run), more).tasks
                             && After(After(s, run), more).tasks[id].place.Held?
  {
    InitialInv(s);
    RunInv(s, run);
    LiveRun(s, run);
    SameProvider(s, run);
    var t := After(s, run);
    if Awaits(t, id) {
      var w := if t.mutex.Some? then t.mutex.value else 0;
      var finish := FinishUp(t, w, id);
      var rest := BringToHeld(After(t, finish), w, id);
      RunAppend(t, finish, rest);
      assert CanRun(t, finish + rest);
    }
    if more :| CanRun(t, more) && id in After(t, more).tasks && After(t, more).tasks[id].place.Held? {
      RunInv(t, more);
      PriorityKept(t, more, id);
      assert RowOk(After(t, more), id);
    }
  }

  // ---------------------------------------------------------------- the service

  /** What a worker does with a task it got. */
  function ProcessSteps(w: WorkerId, ok: bool): seq<Event> {
    [Mark(w)] + ([Generate(w)] + ([Record(w, ok)] + ([Return(w)] + [])))
  }

  lemma {:induction false} ProcessRun(s: State, w: WorkerId, ok: bool)
    requires Enabled(s, Mark(w))
    requires var s1 := Step(s, Mark(w));
             && Enabled(s1, Generate(w))
             && var s2 := Step(s1, Generate(w));
             && Enabled(s2, Record(w, ok)) && Enabled(Step(s2, Record(w, ok)), Return(w))
    ensures CanRun(s, ProcessSteps(w, ok))
    ensures After(s, ProcessSteps(w, ok)) == Step(Step(Step(Step(s, Mark(w)), Generate(w)), Record(w, ok)), Return(w))
  {
    RunThree(Step(s, Mark(w)), Generate(w), Record(w, ok), Return(w));
    RunCons(s, Mark(w), [Generate(w)] + ([Record(w, ok)] + ([Return(w)] + [])));
  }

  /** One dequeue call that no other goroutine interrupts, when the worker finds the lists as in `s`. */
  function DequeueSteps(s: State, w: WorkerId): seq<Event> {
    [Pop(w)] + (if At(s.lists, CHAT) != [] then [] else LowerSteps(s.lists, w))
  }

  /** The rest of it, once the first list was found empty. */
  function LowerSteps(lists: map<int, seq<TaskId>>, w: WorkerId): seq<Event> {
    [Pop(w)] + (if At(lists, PUSH) != [] then []
                else [if At(lists, SCHEDULE) != [] then Pop(w) else Timeout(w)] + [])
  }

  class Queue {
    const parallel: bool
    var tasks: map<TaskId, Row>
    var lists: map<int, seq<TaskId>>
    var workers: seq<Worker>
    var mutex: Option<WorkerId>
    var stopping: bool
    var pushed: map<int, seq<TaskId>>
    var popped: map<int, seq<TaskId>>

    ghost function Snapshot(): State
      reads this
    {
      State(parallel, tasks, lists, workers, mutex, stopping, pushed, popped)
    }

    constructor (numWorkers: int, parallel: bool)
      ensures Initial(Snapshot()) && Inv(Snapshot())
      ensures |workers| == (if numWorkers <= 0 then 4 else numWorkers) && this.parallel == parallel
    {
      this.parallel := parallel;
      tasks, lists, mutex, stopping := map[], map[], None, false;
      pushed, popped := map[], map[];
      workers := seq(if numWorkers <= 0 then 4 else numWorkers, _ => Idle);
      new;
      InitialInv(Snapshot());
    }

    /** The insert into agent_tasks, then LPUSH. */
    method Enqueue(id: TaskId, priority: int)
      requires Inv(Snapshot()) && id !in tasks
      modifies this
      ensures Inv(Snapshot())
      ensures var run := [Insert(id, priority)] + ([Push(id)] + []);
              CanRun(old(Snapshot()), run) && Snapshot() == After(old(Snapshot()), run)
      ensures id in tasks && tasks[id] == Row(priority, Queued, Listed) && tasks - {id} == old(tasks)
      ensures At(lists, priority) == [id] + At(old(lists), priority)
      ensures forall p :: p != priority ==> At(lists, p) == At(old(lists), p)
      ensures workers == old(workers) && mutex == old(mutex)
    {
      ghost var s := Snapshot();
      InsertRow(id, priority);
      StepInv(s, Insert(id, priority));
      ghost var s1 := Snapshot();
      LPush(id, priority);
      StepInv(s1, Push(id));
      RunTwo(s, Insert(id, priority), Push(id));
    }

    /** INSERT INTO agent_tasks. */
    method InsertRow(id: TaskId, priority: int)
      requires id !in tasks
      modifies this`tasks
      ensures tasks == old(tasks)[id := Row(priority, Queued, Inserted)]
      ensures Snapshot() == Step(old(Snapshot()), Insert(id, priority))
    {
      tasks := tasks[id := Row(priority, Queued, Inserted)];
    }

    /** LPUSH on the list of the task's priority. */
    method LPush(id: TaskId, priority: int)
      requires id in tasks && tasks[id] == Row(priority, Queued, Inserted)
      modifies this`tasks, this`lists, this`pushed
      ensures tasks == old(tasks)[id := Row(priority, Queued, Listed)]
      ensures lists == old(lists)[priority := [id] + At(old(lists), priority)]
      ensures Enabled(old(Snapshot()), Push(id)) && Snapshot() == Step(old(Snapshot()), Push(id))
    {
      lists := lists[priority := [id] + At(lists, priority)];
      pushed := pushed[priority := At(pushed, priority) + [id]];
      tasks := tasks[id := tasks[id].(place := Listed)];
    }

    /** RPOP of the list worker `w` looks at next. */
    method RPop(w: WorkerId) returns (result: Option<TaskId>)
      requires w < |workers| && Enabled(Snapshot(), Pop(w))
      modifies this
      ensures Snapshot() == Step(old(Snapshot()), Pop(w))
      ensures var list := At(old(lists), Watched(old(workers)[w]));
              result == if list == [] then None else Some(Back(list))
      ensures result.Some? ==> workers == old(workers)[w := Got(result.value)]
      ensures result.None? ==>
                && lists == old(lists) && tasks == old(tasks)
                && workers == old(workers)[w := if old(workers)[w] == Idle then SawNoChat else SawNoPush]
    {
      var p := Watched(workers[w]);
      var list := At(lists, p);
      if list == [] {
        workers := workers[w := if workers[w].Idle? then SawNoChat else SawNoPush];
        return None;
      }
      var id := list[|list| - 1];
      workers := workers[w := Got(id)];
      lists := lists[p := list[..|list| - 1]];
      popped := popped[p := At(popped, p) + [id]];
      if id in tasks { tasks := tasks[id := tasks[id].(place := Held(w))]; }
      return Some(id);
    }

    /** Priorities 1 and 2 without blocking, then priority 3 with a timeout; None is the timeout. */
    method Dequeue(w: WorkerId) returns (task: Option<TaskId>)
      requires Inv(Snapshot()) && w < |workers| && workers[w] == Idle
      modifies this
      ensures Inv(Snapshot())
      ensures CanRun(old(Snapshot()), DequeueSteps(old(Snapshot()), w))
      ensures Snapshot() == After(old(Snapshot()), DequeueSteps(old(Snapshot()), w))
      ensures task == if At(old(lists), 1) != [] then Some(Back(At(old(lists), 1)))
                      else if At(old(lists), 2) != [] then Some(Back(At(old(lists), 2)))
                      else if At(old(lists), 3) != [] then Some(Back(At(old(lists), 3)))
                      else None
      ensures task.Some? ==> w < |workers| && workers[w] == Got(task.value)
      ensures task.None? ==> lists == old(lists) && tasks == old(tasks) && w < |workers| && workers[w] == Idle
    {
      ghost var s0 := Snapshot();
      task := LookThrough(w);
      RunInv(s0, DequeueSteps(s0, w));
    }

    method LookThrough(w: WorkerId) returns (task: Option<TaskId>)
      requires w < |workers| && workers[w] == Idle
      modifies this
      ensures CanRun(old(Snapshot()), DequeueSteps(old(Snapshot()), w))
      ensures Snapshot() == After(old(Snapshot()), DequeueSteps(old(Snapshot()), w))
      ensures task == if At(old(lists), 1) != [] then Some(Back(At(old(lists), 1)))
                      else if At(old(lists), 2) != [] then Some(Back(At(old(lists), 2)))
                      else if At(old(lists), 3) != [] then Some(Back(At(old(lists), 3)))
                      else None
      ensures task.Some? ==> w < |workers| && workers[w] == Got(task.value)
      ensures task.None? ==> lists == old(lists) && tasks == old(tasks) && w < |workers| && workers[w] == Idle
    {
      ghost var s0 := Snapshot();
      task := RPop(w);
      if task.Some? {
        RunOne(s0, Pop(w));
        return;
      }
      task := LookLower(w);
      RunCons(s0, Pop(w), LowerSteps(s0.lists, w));
    }

    /** Lists 2 and 3. */
    method LookLower(w: WorkerId) returns (task: Option<TaskId>)
      requires w < |workers| && workers[w] == SawNoChat
      modifies this
      ensures CanRun(old(Snapshot()), LowerSteps(old(lists), w))
      ensures Snapshot() == After(old(Snapshot()), LowerSteps(old(lists), w))
      ensures task == if At(old(lists), 2) != [] then Some(Back(At(old(lists), 2)))
                      else if At(old(lists), 3) != [] then Some(Back(At(old(lists), 3)))
                      else None
      ensures task.Some? ==> w < |workers| && workers[w] == Got(task.value)
      ensures task.None? ==> lists == old(lists) && tasks == old(tasks) && w < |workers| && workers[w] == Idle
    {
      ghost var s0 := Snapshot();
      task := RPop(w);
      if task.Some? {
        RunOne(s0, Pop(w));
        return;
      }
      task := BRPop(w);
      RunTwo(s0, Pop(w), if At(s0.lists, SCHEDULE) != [] then Pop(w) else Timeout(w));
    }

    /** BRPOP of list 3, which gives up after its timeout if the list stays empty. */
    method BRPop(w: WorkerId) returns (task: Option<TaskId>)
      requires w < |workers| && workers[w].SawNoPush?
      modifies this
      ensures var e := if At(old(lists), SCHEDULE) != [] then Pop(w) else Timeout(w);
              Enabled(old(Snapshot()), e) && Snapshot() == Step(old(Snapshot()), e)
      ensures var list := At(old(lists), SCHEDULE);
              task == if list == [] then None else Some(Back(list))
      ensures task.Some? ==> workers == old(workers)[w := Got(task.value)]
      ensures task.None? ==> lists == old(lists) && tasks == old(tasks) && workers == old(workers)[w := Idle]
    {
      if At(lists, SCHEDULE) != [] {
        task := RPop(w);
      } else {
        workers := workers[w := Idle];
        task := None;
      }
    }

    /** `ok` is whether the provider's Generate succeeds. */
    method ProcessTask(w: WorkerId, ok: bool)
      requires Inv(Snapshot()) && w < |workers| && workers[w].Got? && (parallel || mutex.None?)
      modifies this
      ensures Inv(Snapshot()) && old(workers)[w].task in old(tasks)
      ensures var id := old(workers)[w].task;
              tasks == old(tasks)[id := old(tasks)[id].(status := if ok then Completed else Failed, place := Finished)]
      ensures lists == old(lists) && workers == old(workers)[w := Idle] && mutex == old(mutex)
      ensures CanRun(old(Snapshot()), ProcessSteps(w, ok)) && Snapshot() == After(old(Snapshot()), ProcessSteps(w, ok))
    {
      ghost var s0 := Snapshot();
      assert WorkerOk(s0, w);
      PerformTask(w, workers[w].task, ok);
      RunInv(s0, ProcessSteps(w, ok));
    }

    method PerformTask(w: WorkerId, id: TaskId, ok: bool)
      requires w < |workers| && workers[w] == Got(id) && id in tasks && (parallel || mutex.None?)
      modifies this`tasks, this`workers, this`mutex
      ensures tasks == old(tasks)[id := old(tasks)[id].(status := if ok then Completed else Failed, place := Finished)]
      ensures workers == old(workers)[w := Idle] && mutex == old(mutex)
      ensures CanRun(old(Snapshot()), ProcessSteps(w, ok)) && Snapshot() == After(old(Snapshot()), ProcessSteps(w, ok))
    {
      ghost var s0 := Snapshot();
      MarkRunning(w, id);
      StartGenerating(w, id);
      RecordAndReturn(w, id, ok);
      ProcessRun(s0, w, ok);
    }

    /** The mutex of a provider that cannot generate in parallel, and the call. */
    method StartGenerating(w: WorkerId, id: TaskId)
      requires w < |workers| && workers[w] == Marked(id) && id in tasks && (parallel || mutex.None?)
      modifies this`mutex, this`workers
      ensures Enabled(old(Snapshot()), Generate(w)) && Snapshot() == Step(old(Snapshot()), Generate(w))
      ensures workers == old(workers)[w := Generating(id)] && mutex == if parallel then old(mutex) else Some(w)
    {
      if !parallel { mutex := Some(w); }
      workers := workers[w := Generating(id)];
    }

    method MarkRunning(w: WorkerId, id: TaskId)
      requires w < |workers| && workers[w] == Got(id) && id in tasks
      modifies this`tasks, this`workers
      ensures Enabled(old(Snapshot()), Mark(w)) && Snapshot() == Step(old(Snapshot()), Mark(w))
      ensures workers == old(workers)[w := Marked(id)]
      ensures tasks == old(tasks)[id := old(tasks)[id].(status := Running)]
    {
      tasks := tasks[id := tasks[id].(status := Running)];
      workers := workers[w := Marked(id)];
    }

    /** The final UPDATE and the deferred unlock. */
    method RecordAndReturn(w: WorkerId, id: TaskId, ok: bool)
      requires w < |workers| && workers[w] == Generating(id) && id in tasks
      modifies this`tasks, this`workers, this`mutex
      ensures Enabled(old(Snapshot()), Record(w, ok)) && Enabled(Step(old(Snapshot()), Record(w, ok)), Return(w))
      ensures Snapshot() == Step(Step(old(Snapshot()), Record(w, ok)), Return(w))
      ensures workers == old(workers)[w := Idle] && mutex == if parallel then old(mutex) else None
      ensures tasks == old(tasks)[id := old(tasks)[id].(status := if ok then Completed else Failed, place := Finished)]
    {
      tasks := tasks[id := tasks[id].(status := if ok then Completed else Failed, place := Finished)];
      workers := workers[w := Recorded(id)];
      if !parallel { mutex := None; }
      workers := workers[w := Idle];
    }
  }
}
