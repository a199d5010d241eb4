/**
 * The mirror scheduler (internal/services/mirror/service.go): the per-repository locks, the run rows and
 * the mirror row that SyncNow and InitialClone write step by step, the reaper, and process crashes.
 *
 * Times are microseconds. A step is one SQL statement (startRun's transaction is one step), one
 * operation on a mutex, or the passing of time.
 */
module Mirror {
  import opened Common

  const SECOND := 1_000_000
  const RETENTION := 50
  const REAP_FLOOR := 600
  const REAP_FACTOR := 3

  type RepoId = nat
  type RunId = nat
  type Tid = nat
  type LockId = nat

  datatype Status = Pending | Running | Success | Failed

  /** A row of repo_mirror_runs. */
  datatype Run = Run(id: RunId, startedAt: int, status: Status)

  /** A repository's row in repo_mirrors, with its rows in repo_mirror_runs, oldest first. */
  datatype Rows = Rows(interval: nat, lastStatus: Status, nextRun: Option<int>, runs: seq<Run>)

  /** Where a goroutine is in SyncNow or InitialClone. */
  datatype Phase =
    | Waiting
    | Holding
    | Syncing(run: RunId)
    | RunWritten(status: Status)
    | MirrorWritten
    | Pruned

  datatype Thread = Thread(repo: RepoId, lock: LockId, phase: Phase)

  datatype State = State(now: int, db: map<RepoId, Rows>, locks: map<RepoId, LockId>,
                         owner: map<LockId, Tid>, threads: map<Tid, Thread>, nextId: RunId)

  datatype Event =
    | Tick(elapsed: nat)
    | Configure(repo: RepoId, interval: nat)
    | Call(t: Tid, repo: RepoId, newLock: LockId)
    | Acquire(t: Tid)
    | Abandon(t: Tid)
    | Start(t: Tid)
    | WriteRun(t: Tid, status: Status)
    | WriteMirror(t: Tid)
    | Prune(t: Tid)
    | Release(t: Tid)
    | Reap
    | Crash

  // ---------------------------------------------------------------- the SQL statements

  function ConfigureRows(db: map<RepoId, Rows>, repo: RepoId, interval: nat, now: int): map<RepoId, Rows> {
    db[repo := if repo in db then db[repo].(interval := interval) else Rows(interval, Pending, Some(now), [])]
  }

  function StartRows(r: Rows, id: RunId, now: int): Rows {
    r.(runs := r.runs + [Run(id, now, Running)], lastStatus := Running)
  }

  /** UPDATE repo_mirror_runs SET status = ... WHERE id = ... */
  function SetStatus(runs: seq<Run>, id: RunId, status: Status): (r: seq<Run>)
    ensures |r| == |runs|
    ensures forall i :: 0 <= i < |runs| ==>
              r[i] == if runs[i].id == id then runs[i].(status := status) else runs[i]
  {
    seq(|runs|, i requires 0 <= i < |runs| => if runs[i].id == id then runs[i].(status := status) else runs[i])
  }

  function FinishRows(r: Rows, status: Status, now: int): Rows {
    r.(lastStatus := status, nextRun := if r.interval > 0 then Some(now + r.interval * SECOND) else None)
  }

  function PruneRows(r: Rows): Rows {
    if |r.runs| <= RETENTION then r else r.(runs := r.runs[|r.runs| - RETENTION..])
  }

  /** How long a run may stay 'running' before the reaper takes it. */
  function Patience(interval: nat): nat {
    (if interval < REAP_FLOOR then REAP_FLOOR else interval) * REAP_FACTOR * SECOND
  }

  predicate IsStuck(run: Run, interval: nat, now: int) {
    run.status == Running && run.startedAt < now - Patience(interval)
  }

  function ReapRows(r: Rows, now: int): (r': Rows)
    ensures |r'.runs| == |r.runs|
    ensures forall i :: 0 <= i < |r.runs| ==>
              r'.runs[i] == if IsStuck(r.runs[i], r.interval, now) then r.runs[i].(status := Failed) else r.runs[i]
  {
    r.(runs := FailStuck(r.runs, r.interval, now), lastStatus := if HasStuck(r, now) then Failed else r.lastStatus)
  }

  function FailStuck(runs: seq<Run>, interval: nat, now: int): (r: seq<Run>)
    ensures |r| == |runs|
    ensures forall i :: 0 <= i < |runs| ==>
              r[i] == if IsStuck(runs[i], interval, now) then runs[i].(status := Failed) else runs[i]
  {
    seq(|runs|, i requires 0 <= i < |runs| =>
      if IsStuck(runs[i], interval, now) then runs[i].(status := Failed) else runs[i])
  }

  predicate HasStuck(r: Rows, now: int) {
    exists i | 0 <= i < |r.runs| :: IsStuck(r.runs[i], r.interval, now)
  }

  function ReapAll(db: map<RepoId, Rows>, now: int): map<RepoId, Rows> {
    map repo | repo in db :: ReapRows(db[repo], now)
  }

  /** RunDue's WHERE clause. */
  predicate Due(r: Rows, now: int) {
    r.interval > 0 && r.lastStatus != Running && (r.nextRun.None? || r.nextRun.value <= now)
  }

  // ---------------------------------------------------------------- steps

  predicate At(s: State, t: Tid) {
    t in s.threads && s.threads[t].repo in s.db
  }

  predicate Enabled(s: State, e: Event) {
    match e
    case Tick(_) => true
    case Configure(_, _) => true
    case Call(t, repo, newLock) => t !in s.threads && newLock !in s.locks.Values && newLock !in s.owner
    case Acquire(t) => t in s.threads && s.threads[t].phase.Waiting? && s.threads[t].lock !in s.owner
    case Abandon(t) => t in s.threads && s.threads[t].phase.Holding?
    case Start(t) =>
      && At(s, t) && s.threads[t].phase.Holding?
      && var runs := s.db[s.threads[t].repo].runs; runs != [] ==> runs[|runs| - 1].startedAt < s.now
    case WriteRun(t, status) => At(s, t) && s.threads[t].phase.Syncing? && (status == Success || status == Failed)
    case WriteMirror(t) => At(s, t) && s.threads[t].phase.RunWritten?
    case Prune(t) => At(s, t) && s.threads[t].phase.MirrorWritten?
    case Release(t) => t in s.threads && s.threads[t].phase.Pruned?
    case Reap => true
    case Crash => true
  }

  /** lockFor: the repository's mutex, created on first use and never replaced. */
  function LockFor(locks: map<RepoId, LockId>, repo: RepoId, newLock: LockId): (LockId, map<RepoId, LockId>) {
    if repo in locks then (locks[repo], locks) else (newLock, locks[repo := newLock])
  }

  function Advance(s: State, t: Tid, rows: Rows, phase: Phase): State
    requires t in s.threads
  {
    s.(db := s.db[s.threads[t].repo := rows], threads := s.threads[t := s.threads[t].(phase := phase)])
  }

  function Unlock(s: State, t: Tid): State
    requires t in s.threads
  {
    s.(owner := s.owner - {s.threads[t].lock}, threads := s.threads - {t})
  }

  function Step(s: State, e: Event): State
    requires Enabled(s, e)
  {
    match e
    case Tick(elapsed) => s.(now := s.now + elapsed)
    case Configure(repo, interval) => s.(db := ConfigureRows(s.db, repo, interval, s.now))
    case Call(t, repo, newLock) =>
      var (lock, locks) := LockFor(s.locks, repo, newLock);
      s.(locks := locks, threads := s.threads[t := Thread(repo, lock, Waiting)])
    case Acquire(t) =>
      s.(owner := s.owner[s.threads[t].lock := t], threads := s.threads[t := s.threads[t].(phase := Holding)])
    case Abandon(t) => Unlock(s, t)
    case Start(t) =>
      Advance(s, t, StartRows(s.db[s.threads[t].repo], s.nextId, s.now), Syncing(s.nextId)).(nextId := s.nextId + 1)
    case WriteRun(t, status) =>
      var rows := s.db[s.threads[t].repo];
      Advance(s, t, rows.(runs := SetStatus(rows.runs, s.threads[t].phase.run, status)), RunWritten(status))
    case WriteMirror(t) =>
      Advance(s, t, FinishRows(s.db[s.threads[t].repo], s.threads[t].phase.status, s.now), MirrorWritten)
    case Prune(t) => Advance(s, t, PruneRows(s.db[s.threads[t].repo]), Pruned)
    case Release(t) => Unlock(s, t)
    case Reap => s.(db := ReapAll(s.db, s.now))
    case Crash => s.(locks := map[], owner := map[], threads := map[])
  }

  predicate CanRun(s: State, run: seq<Event>)
    decreases |run|
  {
    run == [] || (Enabled(s, run[0]) && CanRun(Step(s, run[0]), run[1..]))
  }

  function After(s: State, run: seq<Event>): State
    requires CanRun(s, run)
    decreases |run|
  {
    if run == [] then s else After(Step(s, run[0]), run[1..])
  }

  predicate Initial(s: State) {
    s.db == map[] && s.locks == map[] && s.owner == map[] && s.threads == map[]
  }

  // ---------------------------------------------------------------- mutual exclusion

  predicate InCriticalSection(p: Phase) { !p.Waiting? }

  ghost predicate MutexInv(s: State) {
    && (forall r1, r2 :: r1 in s.locks && r2 in s.locks && s.locks[r1] == s.locks[r2] ==> r1 == r2)
    && (forall l :: l in s.owner ==>
          && s.owner[l] in s.threads && s.threads[s.owner[l]].lock == l
          && InCriticalSection(s.threads[s.owner[l]].phase))
    && (forall t :: t in s.threads ==>
          && s.threads[t].repo in s.locks && s.locks[s.threads[t].repo] == s.threads[t].lock
          && (InCriticalSection(s.threads[t].phase) ==>
                s.threads[t].lock in s.owner && s.owner[s.threads[t].lock] == t))
  }

  /** A step that takes no lock, releases none, and moves no goroutine in or out of its critical section. */
  lemma MutexSame(s: State, s': State)
    requires MutexInv(s) && s'.locks == s.locks && s'.owner == s.owner && s'.threads.Keys == s.threads.Keys
    requires forall t :: t in s.threads ==>
               && s'.threads[t].repo == s.threads[t].repo && s'.threads[t].lock == s.threads[t].lock
               && (InCriticalSection(s'.threads[t].phase) <==> InCriticalSection(s.threads[t].phase))
    ensures MutexInv(s')
  {
    assert forall t :: t in s'.threads <==> t in s.threads;
  }

  lemma MutexCall(s: State, t: Tid, repo: RepoId, newLock: LockId)
    requires MutexInv(s) && Enabled(s, Call(t, repo, newLock))
    ensures MutexInv(Step(s, Call(t, repo, newLock)))
  {
    if repo !in s.locks {
      forall r | r in s.locks ensures s.locks[r] != newLock { assert s.locks[r] in s.locks.Values; }
    }
  }

  lemma MutexAcquire(s: State, t: Tid)
    requires MutexInv(s) && Enabled(s, Acquire(t))
    ensures MutexInv(Step(s, Acquire(t)))
  {
  }

  lemma MutexUnlock(s: State, t: Tid)
    requires MutexInv(s) && t in s.threads && InCriticalSection(s.threads[t].phase)
    ensures MutexInv(Unlock(s, t))
  {
    forall u | u in s.threads && u != t && InCriticalSection(s.threads[u].phase)
      ensures s.threads[u].lock != s.threads[t].lock
    {
      assert s.owner[s.threads[u].lock] == u && s.owner[s.threads[t].lock] == t;
    }
  }

  lemma MutexAdvance(s: State, t: Tid, rows: Rows, phase: Phase)
    requires MutexInv(s) && t in s.threads && InCriticalSection(s.threads[t].phase) && InCriticalSection(phase)
    ensures MutexInv(Advance(s, t, rows, phase))
  {
    var s' := Advance(s, t, rows, phase);
    assert s'.threads.Keys == s.threads.Keys;
    MutexSame(s, s');
  }

  /** The mutex admits one goroutine at a time. */
  lemma OneOwner(s: State, t1: Tid, t2: Tid)
    requires MutexInv(s) && t1 in s.threads && t2 in s.threads && s.threads[t1].repo == s.threads[t2].repo
    requires InCriticalSection(s.threads[t1].phase) && InCriticalSection(s.threads[t2].phase)
    ensures t1 == t2
  {
    assert s.owner[s.threads[t1].lock] == s.owner[s.threads[t2].lock];
  }

  /** Nobody is inside SyncNow's critical section for `repo`. */
  ghost predicate Free(s: State, repo: RepoId) {
    forall t :: t in s.threads && s.threads[t].repo == repo ==> !InCriticalSection(s.threads[t].phase)
  }

  // ---------------------------------------------------------------- what holds in every run, crashes included

  ghost predicate RunsOk(runs: seq<Run>, now: int, nextId: RunId) {
    && (forall i, j :: 0 <= i < j < |runs| ==> runs[i].id < runs[j].id && runs[i].startedAt < runs[j].startedAt)
    && (forall i :: 0 <= i < |runs| ==> runs[i].id < nextId && runs[i].startedAt <= now && runs[i].status != Pending)
  }

  /** A repository's run rows agree with how far the goroutine holding its lock has come. */
  predicate RowsFit(runs: seq<Run>, phase: Phase) {
    match phase
    case Waiting => true
    case Holding => true
    case Syncing(run) => runs != [] && runs[|runs| - 1].id == run
    case _ => runs != [] && !NewestRunning(runs)
  }

  predicate NewestRunning(runs: seq<Run>) {
    runs != [] && runs[|runs| - 1].status == Running
  }

  ghost predicate PhaseOk(s: State, t: Tid)
    requires t in s.threads
  {
    if s.threads[t].repo in s.db then RowsFit(s.db[s.threads[t].repo].runs, s.threads[t].phase)
    else s.threads[t].phase.Waiting? || s.threads[t].phase.Holding?
  }

  ghost predicate Inv(s: State) {
    && MutexInv(s)
    && (forall r :: r in s.db ==> RunsOk(s.db[r].runs, s.now, s.nextId))
    && (forall t :: t in s.threads ==> PhaseOk(s, t))
    && (forall t :: t in s.threads && s.threads[t].phase.RunWritten? ==>
          s.threads[t].phase.status == Success || s.threads[t].phase.status == Failed)
  }

  /** A step by the goroutine holding a repository's lock leaves the other goroutines' rows alone. */
  lemma AdvanceInv(s: State, t: Tid, rows: Rows, phase: Phase)
    requires Inv(s) && At(s, t) && InCriticalSection(s.threads[t].phase) && InCriticalSection(phase)
    requires RunsOk(rows.runs, s.now, s.nextId)
    requires RowsFit(rows.runs, phase)
    requires phase.RunWritten? ==> phase.status == Success || phase.status == Failed
    ensures Inv(Advance(s, t, rows, phase))
  {
    var s' := Advance(s, t, rows, phase);
    MutexAdvance(s, t, rows, phase);
    forall u | u in s'.threads ensures PhaseOk(s', u) {
      if u != t && InCriticalSection(s.threads[u].phase) && s.threads[u].repo == s.threads[t].repo {
        OneOwner(s, t, u);
      }
      assert PhaseOk(s, u);
    }
  }

  lemma ReapedFits(before: seq<Run>, after: seq<Run>, phase: Phase)
    requires RowsFit(before, phase) && SameOrReaped(before, after)
    ensures RowsFit(after, phase)
  {
  }

  lemma ReapedRunsOk(before: seq<Run>, after: seq<Run>, now: int, nextId: RunId, now': int, nextId': RunId)
    requires RunsOk(before, now, nextId) && SameOrReaped(before, after) && now' >= now && nextId' >= nextId
    ensures RunsOk(after, now', nextId')
  {
  }

  /** A step that leaves every goroutine's rows as they are, or the rows no worse for it. */
  lemma QuietInv(s: State, s': State)
    requires Inv(s) && MutexInv(s') && s'.nextId >= s.nextId && s'.now >= s.now
    requires forall t :: t in s'.threads && InCriticalSection(s'.threads[t].phase) && !s'.threads[t].phase.Holding? ==>
               t in s.threads && s'.threads[t] == s.threads[t]
    requires forall r :: r in s.db ==> r in s'.db && SameOrReaped(s.db[r].runs, s'.db[r].runs)
    requires forall r :: r in s'.db && r !in s.db ==> s'.db[r].runs == []
    ensures Inv(s')
  {
    forall t | t in s'.threads ensures PhaseOk(s', t) {
      var repo, phase := s'.threads[t].repo, s'.threads[t].phase;
      if InCriticalSection(phase) && !phase.Holding? {
        assert PhaseOk(s, t);
        ReapedFits(s.db[repo].runs, s'.db[repo].runs, phase);
      }
    }
    forall r | r in s'.db ensures RunsOk(s'.db[r].runs, s'.now, s'.nextId) {
      if r in s.db { ReapedRunsOk(s.db[r].runs, s'.db[r].runs, s.now, s.nextId, s'.now, s'.nextId); }
    }
  }

  predicate SameOrReaped(before: seq<Run>, after: seq<Run>) {
    |after| == |before| &&
    forall i :: 0 <= i < |before| ==>
      after[i] == before[i] || (before[i].status == Running && after[i] == before[i].(status := Failed))
  }

  lemma StartFits(r: Rows, now: int, id: RunId)
    requires RunsOk(r.runs, now, id) && (r.runs != [] ==> r.runs[|r.runs| - 1].startedAt < now)
    ensures RunsOk(StartRows(r, id, now).runs, now, id + 1) && RowsFit(StartRows(r, id, now).runs, Syncing(id))
  {
  }

  lemma NextIdInv(s: State)
    requires Inv(s)
    ensures Inv(s.(nextId := s.nextId + 1))
  {
    MutexSame(s, s.(nextId := s.nextId + 1));
    QuietInv(s, s.(nextId := s.nextId + 1));
  }

  lemma StartedInv(s: State, t: Tid, id: RunId)
    requires Inv(s) && At(s, t) && s.threads[t].phase.Holding? && s.nextId == id + 1
    requires var runs := s.db[s.threads[t].repo].runs;
             RunsOk(runs, s.now, id) && (runs != [] ==> runs[|runs| - 1].startedAt < s.now)
    ensures Inv(Advance(s, t, StartRows(s.db[s.threads[t].repo], id, s.now), Syncing(id)))
  {
    StartFits(s.db[s.threads[t].repo], s.now, id);
    AdvanceInv(s, t, StartRows(s.db[s.threads[t].repo], id, s.now), Syncing(id));
  }

  lemma StartInv(s: State, t: Tid)
    requires Inv(s) && Enabled(s, Start(t))
    ensures Inv(Step(s, Start(t)))
  {
    assert RunsOk(s.db[s.threads[t].repo].runs, s.now, s.nextId);
    NextIdInv(s);
    StartedInv(s.(nextId := s.nextId + 1), t, s.nextId);
    StartAdvances(s, t);
  }

  lemma StartAdvances(s: State, t: Tid)
    requires Enabled(s, Start(t))
    ensures Step(s, Start(t))
         == Advance(s.(nextId := s.nextId + 1), t, StartRows(s.db[s.threads[t].repo], s.nextId, s.now),
                    Syncing(s.nextId))
  {
  }

  lemma WriteRunOk(runs: seq<Run>, id: RunId, status: Status, now: int, nextId: RunId)
    requires RunsOk(runs, now, nextId) && (status == Success || status == Failed)
    ensures RunsOk(SetStatus(runs, id, status), now, nextId)
  {
  }

  lemma WriteRunInv(s: State, t: Tid, status: Status)
    requires Inv(s) && Enabled(s, WriteRun(t, status))
    ensures Inv(Step(s, WriteRun(t, status)))
  {
    var rows := s.db[s.threads[t].repo];
    assert PhaseOk(s, t) && RunsOk(rows.runs, s.now, s.nextId);
    WriteRunOk(rows.runs, s.threads[t].phase.run, status, s.now, s.nextId);
    AdvanceInv(s, t, rows.(runs := SetStatus(rows.runs, s.threads[t].phase.run, status)), RunWritten(status));
  }

  lemma WriteMirrorInv(s: State, t: Tid)
    requires Inv(s) && Enabled(s, WriteMirror(t))
    ensures Inv(Step(s, WriteMirror(t)))
  {
    var rows := s.db[s.threads[t].repo];
    assert PhaseOk(s, t) && RunsOk(rows.runs, s.now, s.nextId);
    AdvanceInv(s, t, FinishRows(rows, s.threads[t].phase.status, s.now), MirrorWritten);
  }

  lemma PruneInv(s: State, t: Tid)
    requires Inv(s) && Enabled(s, Prune(t))
    ensures Inv(Step(s, Prune(t)))
  {
    var rows := s.db[s.threads[t].repo];
    assert PhaseOk(s, t) && RunsOk(rows.runs, s.now, s.nextId);
    AdvanceInv(s, t, PruneRows(rows), Pruned);
  }

  lemma CallInv(s: State, t: Tid, repo: RepoId, newLock: LockId)
    requires Inv(s) && Enabled(s, Call(t, repo, newLock))
    ensures Inv(Step(s, Call(t, repo, newLock)))
  {
    MutexCall(s, t, repo, newLock);
    QuietInv(s, Step(s, Call(t, repo, newLock)));
  }

  lemma AcquireInv(s: State, t: Tid)
    requires Inv(s) && Enabled(s, Acquire(t))
    ensures Inv(Step(s, Acquire(t)))
  {
    MutexAcquire(s, t);
    QuietInv(s, Step(s, Acquire(t)));
  }

  lemma UnlockInv(s: State, t: Tid)
    requires Inv(s) && t in s.threads && InCriticalSection(s.threads[t].phase)
    ensures Inv(Unlock(s, t))
  {
    MutexUnlock(s, t);
    QuietInv(s, Unlock(s, t));
  }

  /** The steps that concern no goroutine: the clock, the settings and the reaper. */
  lemma ServiceInv(s: State, e: Event)
    requires Inv(s) && Enabled(s, e) && (e.Tick? || e.Configure? || e.Reap?)
    ensures Inv(Step(s, e))
  {
    MutexSame(s, Step(s, e));
    QuietInv(s, Step(s, e));
  }

  lemma CrashInv(s: State)
    requires Inv(s)
    ensures Inv(Step(s, Crash))
  {
    QuietInv(s, Step(s, Crash));
  }

  lemma StepInv(s: State, e: Event)
    requires Inv(s) && Enabled(s, e)
    ensures Inv(Step(s, e))
  {
    match e
    case Call(t, repo, newLock) => CallInv(s, t, repo, newLock);
    case Acquire(t) => AcquireInv(s, t);
    case Abandon(t) => UnlockInv(s, t);
    case Start(t) => StartInv(s, t);
    case WriteRun(t, status) => WriteRunInv(s, t, status);
    case WriteMirror(t) => WriteMirrorInv(s, t);
    case Prune(t) => PruneInv(s, t);
    case Release(t) => UnlockInv(s, t);
    case Crash => CrashInv(s);
    case _ => ServiceInv(s, e);
  }

  lemma {:induction false} RunInv(s: State, run: seq<Event>)
    requires Inv(s) && CanRun(s, run)
    ensures Inv(After(s, run))
    decreases |run|
  {
    if run != [] {
      StepInv(s, run[0]);
      RunInv(Step(s, run[0]), run[1..]);
    }
  }

  /** In every run, crashes included, at most one goroutine is between lock.Lock() and Unlock for any repository. */
  lemma OneSyncPerRepo(s: State, run: seq<Event>, t1: Tid, t2: Tid)
    requires Initial(s) && CanRun(s, run) && t1 in After(s, run).threads && t2 in After(s, run).threads
    requires After(s, run).threads[t1].repo == After(s, run).threads[t2].repo
    requires InCriticalSection(After(s, run).threads[t1].phase) && InCriticalSection(After(s, run).threads[t2].phase)
    ensures t1 == t2
  {
    InitialInv(s);
    RunInv(s, run);
    OneOwner(After(s, run), t1, t2);
  }

  // ---------------------------------------------------------------- crash-free runs

  ghost predicate NoneRunning(runs: seq<Run>) {
    forall i :: 0 <= i < |runs| ==> runs[i].status != Running
  }

  /** The mirror's status is that of its newest run, no run is 'running', and history is pruned. */
  ghost predicate Settled(r: Rows) {
    && NoneRunning(r.runs) && |r.runs| <= RETENTION
    && r.lastStatus == (if r.runs == [] then Pending else r.runs[|r.runs| - 1].status)
  }

  ghost predicate StageOk(r: Rows, phase: Phase) {
    match phase
    case Waiting => true
    case Holding => Settled(r)
    case Syncing(_) =>
      && 0 < |r.runs| <= RETENTION + 1 && NoneRunning(r.runs[..|r.runs| - 1])
      && (r.runs[|r.runs| - 1].status == Running || r.runs[|r.runs| - 1].status == Failed)
      && (r.lastStatus == Running <==> r.runs[|r.runs| - 1].status == Running)
    case RunWritten(status) =>
      0 < |r.runs| <= RETENTION + 1 && NoneRunning(r.runs) && r.runs[|r.runs| - 1].status == status
    case MirrorWritten =>
      0 < |r.runs| <= RETENTION + 1 && NoneRunning(r.runs) && r.runs[|r.runs| - 1].status == r.lastStatus
    case Pruned => Settled(r)
  }

  ghost predicate CrashFree(s: State) {
    && (forall r :: r in s.db && Free(s, r) ==> Settled(s.db[r]))
    && (forall t :: t in s.threads && s.threads[t].repo in s.db ==>
          StageOk(s.db[s.threads[t].repo], s.threads[t].phase))
  }

  /** A repository whose lock is not owned is free, and one with a goroutine inside is not. */
  lemma FreeIffUnowned(s: State, t: Tid)
    requires MutexInv(s) && t in s.threads
    ensures Free(s, s.threads[t].repo) <==> s.threads[t].lock !in s.owner
  {
    var lock := s.threads[t].lock;
    if lock in s.owner {
      var u := s.owner[lock];
      assert s.locks[s.threads[u].repo] == lock;
    }
  }

  lemma AdvanceCrashFree(s: State, t: Tid, rows: Rows, phase: Phase)
    requires Inv(s) && CrashFree(s) && At(s, t)
    requires InCriticalSection(s.threads[t].phase) && InCriticalSection(phase) && StageOk(rows, phase)
    ensures CrashFree(Advance(s, t, rows, phase))
  {
    var s' := Advance(s, t, rows, phase);
    var repo := s.threads[t].repo;
    assert !Free(s', repo) by { assert InCriticalSection(s'.threads[t].phase); }
    forall r | r in s'.db && Free(s', r) ensures Settled(s'.db[r]) {
      forall u | u in s.threads && s.threads[u].repo == r ensures !InCriticalSection(s.threads[u].phase) {
        assert s'.threads[u] == s.threads[u];
      }
      assert Free(s, r);
    }
    forall u | u in s'.threads && s'.threads[u].repo in s'.db
      ensures StageOk(s'.db[s'.threads[u].repo], s'.threads[u].phase)
    {
      if u != t && s.threads[u].repo == repo && InCriticalSection(s.threads[u].phase) { OneOwner(s, t, u); }
    }
  }

  /** A call or an acquisition takes no thread out of its critical section. */
  lemma ThreadsOnlyEnter(s: State, e: Event)
    requires Enabled(s, e) && (e.Call? || e.Acquire?)
    ensures forall u :: u in s.threads && InCriticalSection(s.threads[u].phase) ==>
              && u in Step(s, e).threads && Step(s, e).threads[u].repo == s.threads[u].repo
              && InCriticalSection(Step(s, e).threads[u].phase)
  {
  }

  lemma WaitOrEnterCrashFree(s: State, e: Event)
    requires Inv(s) && CrashFree(s) && Enabled(s, e) && (e.Call? || e.Acquire?)
    ensures CrashFree(Step(s, e))
  {
    var s' := Step(s, e);
    if e.Acquire? { FreeIffUnowned(s, e.t); }
    forall r | r in s'.db && Free(s', r) ensures Settled(s'.db[r]) {
      ThreadsOnlyEnter(s, e);
      assert Free(s, r);
    }
    forall u | u in s'.threads && s'.threads[u].repo in s'.db
      ensures StageOk(s'.db[s'.threads[u].repo], s'.threads[u].phase)
    {
    }
  }

  lemma LeaveCrashFree(s: State, t: Tid)
    requires Inv(s) && CrashFree(s) && t in s.threads
    requires s.threads[t].phase.Holding? || s.threads[t].phase.Pruned?
    ensures CrashFree(Unlock(s, t))
  {
    var s' := Unlock(s, t);
    forall r | r in s'.db && Free(s', r) ensures Settled(s'.db[r]) {
      if r == s.threads[t].repo {
        assert StageOk(s.db[r], s.threads[t].phase);
      } else {
        forall u | u in s.threads && s.threads[u].repo == r ensures !InCriticalSection(s.threads[u].phase) {
          assert u in s'.threads;
        }
        assert Free(s, r);
      }
    }
  }

  /** A step outside every critical section: the rows stay settled, or at their stage. */
  lemma OutsideCrashFree(s: State, s': State)
    requires CrashFree(s) && s'.threads == s.threads
    requires forall r :: r in s'.db ==>
               if r in s.db then RowsKept(s.db[r], s'.db[r])
               else Settled(s'.db[r]) && forall t :: t in s.threads && s.threads[t].repo == r ==>
                      s.threads[t].phase.Waiting? || s.threads[t].phase.Holding?
    ensures CrashFree(s')
  {
    forall r | r in s'.db && Free(s', r) ensures Settled(s'.db[r]) {
      if r in s.db {
        assert Free(s, r);
        assert RowsKept(s.db[r], s'.db[r]) && StageOk(s.db[r], Holding);
        assert StageOk(s'.db[r], Holding);
      }
    }
    forall u | u in s'.threads && s'.threads[u].repo in s'.db
      ensures StageOk(s'.db[s'.threads[u].repo], s'.threads[u].phase)
    {
      var r := s.threads[u].repo;
      if r in s.db { assert RowsKept(s.db[r], s'.db[r]) && StageOk(s.db[r], s.threads[u].phase); }
    }
  }

  ghost predicate RowsKept(r: Rows, r': Rows) {
    forall phase :: StageOk(r, phase) ==> StageOk(r', phase)
  }

  lemma ConfigureCrashFree(s: State, repo: RepoId, interval: nat)
    requires Inv(s) && CrashFree(s)
    ensures CrashFree(Step(s, Configure(repo, interval)))
  {
    var s' := s.(db := ConfigureRows(s.db, repo, interval, s.now));
    forall t | t in s.threads && s.threads[t].repo !in s.db
      ensures s.threads[t].phase.Waiting? || s.threads[t].phase.Holding?
    {
      assert PhaseOk(s, t);
    }
    forall r | r in s.db ensures RowsKept(s.db[r], s'.db[r]) { IntervalKept(s.db[r], s'.db[r].interval); }
    OutsideCrashFree(s, s');
  }

  lemma IntervalKept(r: Rows, interval: nat)
    ensures RowsKept(r, r.(interval := interval))
  {
  }

  lemma ReapCrashFree(s: State)
    requires CrashFree(s)
    ensures CrashFree(Step(s, Reap))
  {
    forall r | r in s.db ensures RowsKept(s.db[r], ReapRows(s.db[r], s.now)) {
      forall phase | StageOk(s.db[r], phase) ensures StageOk(ReapRows(s.db[r], s.now), phase) {
        ReapStage(s.db[r], phase, s.now);
      }
    }
    OutsideCrashFree(s, Step(s, Reap));
  }

  lemma ReapStage(r: Rows, phase: Phase, now: int)
    requires StageOk(r, phase)
    ensures StageOk(ReapRows(r, now), phase)
  {
  }

  lemma StartStage(r: Rows, id: RunId, now: int)
    requires Settled(r)
    ensures StageOk(StartRows(r, id, now), Syncing(id))
  {
    assert StartRows(r, id, now).runs[..|r.runs|] == r.runs;
  }

  lemma WriteRunStage(r: Rows, id: RunId, status: Status, now: int, nextId: RunId)
    requires StageOk(r, Syncing(id)) && RunsOk(r.runs, now, nextId) && r.runs[|r.runs| - 1].id == id
    requires status == Success || status == Failed
    ensures StageOk(r.(runs := SetStatus(r.runs, id, status)), RunWritten(status))
  {
    forall i | 0 <= i < |r.runs| ensures SetStatus(r.runs, id, status)[i].status != Running {
      assert i < |r.runs| - 1 ==> r.runs[..|r.runs| - 1][i].status != Running;
    }
  }

  lemma PruneStage(r: Rows)
    requires StageOk(r, MirrorWritten)
    ensures StageOk(PruneRows(r), Pruned)
  {
  }

  lemma StartCrashFree(s: State, t: Tid)
    requires Inv(s) && CrashFree(s) && Enabled(s, Start(t))
    ensures CrashFree(Step(s, Start(t)))
  {
    var r := s.db[s.threads[t].repo];
    StartStage(r, s.nextId, s.now);
    AdvanceCrashFree(s, t, StartRows(r, s.nextId, s.now), Syncing(s.nextId));
    NextIdIrrelevant(Advance(s, t, StartRows(r, s.nextId, s.now), Syncing(s.nextId)), s.nextId + 1);
  }

  lemma WriteRunCrashFree(s: State, t: Tid, status: Status)
    requires Inv(s) && CrashFree(s) && Enabled(s, WriteRun(t, status))
    ensures CrashFree(Step(s, WriteRun(t, status)))
  {
    var r, id := s.db[s.threads[t].repo], s.threads[t].phase.run;
    assert PhaseOk(s, t) && StageOk(r, Syncing(id));
    WriteRunStage(r, id, status, s.now, s.nextId);
    AdvanceCrashFree(s, t, r.(runs := SetStatus(r.runs, id, status)), RunWritten(status));
  }

  lemma WriteMirrorCrashFree(s: State, t: Tid)
    requires Inv(s) && CrashFree(s) && Enabled(s, WriteMirror(t))
    ensures CrashFree(Step(s, WriteMirror(t)))
  {
    var r, status := s.db[s.threads[t].repo], s.threads[t].phase.status;
    assert StageOk(r, RunWritten(status));
    AdvanceCrashFree(s, t, FinishRows(r, status, s.now), MirrorWritten);
  }

  lemma PruneCrashFree(s: State, t: Tid)
    requires Inv(s) && CrashFree(s) && Enabled(s, Prune(t))
    ensures CrashFree(Step(s, Prune(t)))
  {
    var r := s.db[s.threads[t].repo];
    assert StageOk(r, MirrorWritten);
    PruneStage(r);
    AdvanceCrashFree(s, t, PruneRows(r), Pruned);
  }

  lemma TickCrashFree(s: State, elapsed: nat)
    requires CrashFree(s)
    ensures CrashFree(Step(s, Tick(elapsed)))
  {
    OutsideCrashFree(s, Step(s, Tick(elapsed)));
  }

  lemma CrashFreeStep(s: State, e: Event)
    requires Inv(s) && CrashFree(s) && Enabled(s, e) && !e.Crash?
    ensures CrashFree(Step(s, e))
  {
    match e
    case Call(_, _, _) => WaitOrEnterCrashFree(s, e);
    case Acquire(_) => WaitOrEnterCrashFree(s, e);
    case Abandon(t) => LeaveCrashFree(s, t);
    case Release(t) => LeaveCrashFree(s, t);
    case Start(t) => StartCrashFree(s, t);
    case WriteRun(t, status) => WriteRunCrashFree(s, t, status);
    case WriteMirror(t) => WriteMirrorCrashFree(s, t);
    case Prune(t) => PruneCrashFree(s, t);
    case Configure(repo, interval) => ConfigureCrashFree(s, repo, interval);
    case Reap => ReapCrashFree(s);
    case Tick(elapsed) => TickCrashFree(s, elapsed);
  }

  lemma NextIdIrrelevant(s: State, nextId: RunId)
    requires CrashFree(s)
    ensures CrashFree(s.(nextId := nextId))
  {
    assert forall r :: Free(s.(nextId := nextId), r) ==> Free(s, r);
  }

  lemma {:induction false} CrashFreeRun(s: State, run: seq<Event>)
    requires Inv(s) && CrashFree(s) && CanRun(s, run) && Crash !in run
    ensures Inv(After(s, run)) && CrashFree(After(s, run))
    decreases |run|
  {
    if run != [] {
      assert run[0] in run;
      StepInv(s, run[0]);
      CrashFreeStep(s, run[0]);
      CrashFreeRun(Step(s, run[0]), run[1..]);
    }
  }

  lemma InitialInv(s: State)
    requires Initial(s)
    ensures Inv(s) && CrashFree(s)
  {
  }

  /**
   * In every crash-free run, with the reaper interleaved anywhere: whenever nobody holds a repository's
   * lock, its status is the status of its newest run ('pending' before the first one) and not
   * 'running'. It never has more than one row beyond the retention limit.
   */
  lemma {:induction false} StatusFollowsNewestRun(s: State, run: seq<Event>, repo: RepoId)
    requires Initial(s) && CanRun(s, run) && Crash !in run && repo in After(s, run).db
    ensures var rows := After(s, run).db[repo];
            && |rows.runs| <= RETENTION + 1
            && (Free(After(s, run), repo) ==>
                  && rows.lastStatus != Running && |rows.runs| <= RETENTION
                  && rows.lastStatus == (if rows.runs == [] then Pending else rows.runs[|rows.runs| - 1].status))
  {
    InitialInv(s);
    CrashFreeRun(s, run);
    var t := After(s, run);
    if !Free(t, repo) {
      var u :| u in t.threads && t.threads[u].repo == repo && InCriticalSection(t.threads[u].phase);
      assert StageOk(t.db[repo], t.threads[u].phase);
    }
  }

  // ---------------------------------------------------------------- crashes and recovery

  /** With a fixed interval, the next run is never scheduled later than one interval after the last start. */
  ghost predicate TimeOk(s: State, repo: RepoId, interval: nat) {
    repo in s.db && TimeRows(s.db[repo], s.now, interval)
  }

  ghost predicate TimeRows(r: Rows, now: int, interval: nat) {
    && interval > 0 && r.interval == interval
    && r.nextRun.Some? && r.nextRun.value <= now + interval * SECOND
    && (NewestRunning(r.runs) ==> r.nextRun.value <= r.runs[|r.runs| - 1].startedAt + interval * SECOND)
  }

  lemma TimeStart(r: Rows, id: RunId, now: int, interval: nat)
    requires TimeRows(r, now, interval)
    ensures TimeRows(StartRows(r, id, now), now, interval)
  {
  }

  lemma TimeReap(r: Rows, now: int, interval: nat)
    requires TimeRows(r, now, interval)
    ensures TimeRows(ReapRows(r, now), now, interval)
  {
    var r' := ReapRows(r, now);
    assert NewestRunning(r'.runs) ==> NewestRunning(r.runs) && r'.runs[|r.runs| - 1] == r.runs[|r.runs| - 1];
  }

  /** Writing the final status of the newest run leaves it no longer 'running'. */
  lemma NewestWritten(s: State, t: Tid, status: Status)
    requires Inv(s) && Enabled(s, WriteRun(t, status))
    ensures !NewestRunning(Step(s, WriteRun(t, status)).db[s.threads[t].repo].runs)
  {
    assert PhaseOk(s, t);
  }

  /** Nor is it when the mirror row is written and the history pruned. */
  lemma NewestAlreadyWritten(s: State, t: Tid)
    requires Inv(s) && At(s, t) && (s.threads[t].phase.RunWritten? || s.threads[t].phase.MirrorWritten?)
    ensures var runs := s.db[s.threads[t].repo].runs; runs != [] && !NewestRunning(runs)
  {
    assert PhaseOk(s, t);
  }

  lemma TimeStep(s: State, e: Event, repo: RepoId, interval: nat)
    requires Inv(s) && Enabled(s, e) && TimeOk(s, repo, interval)
    requires e.Configure? && e.repo == repo ==> e.interval == interval
    ensures TimeOk(Step(s, e), repo, interval)
  {
    match e
    case Start(t) => TimeStart(s.db[repo], s.nextId, s.now, interval);
    case WriteRun(t, status) => NewestWritten(s, t, status);
    case WriteMirror(t) => NewestAlreadyWritten(s, t);
    case Prune(t) => NewestAlreadyWritten(s, t);
    case Reap => TimeReap(s.db[repo], s.now, interval);
    case _ =>
  }

  /** One pass of the reaper: afterwards no run older than its patience is 'running', for any repository. */
  lemma ReaperIsExact(s: State, repo: RepoId, i: nat)
    requires repo in s.db && i < |s.db[repo].runs| && s.db[repo].runs[i].status == Running
    ensures var r, after := s.db[repo], Step(s, Reap).db[repo];
            var stuck := s.now > r.runs[i].startedAt + 3 * (if r.interval > 600 then r.interval else 600) * 1_000_000;
            && after.runs[i].status == (if stuck then Failed else Running)
            && (stuck ==> after.lastStatus == Failed)
  {
  }

  /** The newest run of `repo` is `id`, left 'running' by a crash. */
  ghost predicate LeftRunning(s: State, repo: RepoId, interval: nat, run: Run) {
    && TimeOk(s, repo, interval) && run.status == Running
    && s.db[repo].runs != [] && s.db[repo].runs[|s.db[repo].runs| - 1] == run
    && ForgottenBy(s, repo)
  }

  /** No goroutine is past startRun for `repo`. */
  ghost predicate ForgottenBy(s: State, repo: RepoId) {
    forall t :: t in s.threads && s.threads[t].repo == repo ==>
      s.threads[t].phase.Waiting? || s.threads[t].phase.Holding?
  }

  /** The abandoned run was reaped and the mirror is due again. */
  ghost predicate Recovered(s: State, repo: RepoId, interval: nat, run: Run) {
    && repo in s.db && s.db[repo].interval == interval && s.db[repo].lastStatus == Failed
    && s.db[repo].runs != [] && s.db[repo].runs[|s.db[repo].runs| - 1] == run.(status := Failed)
    && Due(s.db[repo], s.now)
    && ForgottenBy(s, repo)
  }

  /** Steps that neither start a sync of `repo` nor change its settings. */
  predicate LeavesAlone(s: State, e: Event, repo: RepoId) {
    match e
    case Configure(r, _) => r != repo
    case Start(t) => t in s.threads ==> s.threads[t].repo != repo
    case _ => true
  }

  ghost predicate AllLeaveAlone(s: State, run: seq<Event>, repo: RepoId)
    requires CanRun(s, run)
    decreases |run|
  {
    run == [] || (LeavesAlone(s, run[0], repo) && AllLeaveAlone(Step(s, run[0]), run[1..], repo))
  }

  lemma LeftRunningStep(s: State, e: Event, repo: RepoId, interval: nat, run: Run)
    requires Inv(s) && Enabled(s, e) && LeavesAlone(s, e, repo) && LeftRunning(s, repo, interval, run)
    ensures var s' := Step(s, e);
            if e == Reap && s.now > run.startedAt + Patience(interval)
            then Recovered(s', repo, interval, run) else LeftRunning(s', repo, interval, run)
  {
    TimeStep(s, e, repo, interval);
    ForgottenStep(s, e, repo);
    if e == Reap && s.now > run.startedAt + Patience(interval) { ReapsNewest(s.db[repo], s.now); }
  }

  /** A step that starts no sync of `repo` brings no goroutine past startRun for it. */
  lemma ForgottenStep(s: State, e: Event, repo: RepoId)
    requires Enabled(s, e) && LeavesAlone(s, e, repo) && ForgottenBy(s, repo)
    ensures ForgottenBy(Step(s, e), repo)
  {
  }

  lemma ReapsNewest(r: Rows, now: int)
    requires NewestRunning(r.runs) && IsStuck(r.runs[|r.runs| - 1], r.interval, now)
    ensures ReapRows(r, now).lastStatus == Failed
  {
  }

  lemma RecoveredStep(s: State, e: Event, repo: RepoId, interval: nat, run: Run)
    requires Inv(s) && Enabled(s, e) && LeavesAlone(s, e, repo) && Recovered(s, repo, interval, run)
    ensures Recovered(Step(s, e), repo, interval, run)
  {
    ForgottenStep(s, e, repo);
  }

  /**
   * After a crash that left a run of `repo` unfinished, whatever else happens before the repository is
   * next synced: the run stays as it is until the first pass of the reaper later than
   * start + 3 * max(interval, 600) seconds. That pass fails it, and from then on the mirror is due.
   */
  lemma {:induction false} CrashedRunIsReaped(s: State, run: seq<Event>, repo: RepoId, interval: nat, left: Run)
    requires Inv(s) && CanRun(s, run) && AllLeaveAlone(s, run, repo)
    requires LeftRunning(s, repo, interval, left) || Recovered(s, repo, interval, left)
    ensures var t := After(s, run);
            && Inv(t)
            && (LeftRunning(t, repo, interval, left) || Recovered(t, repo, interval, left))
            && (t.now > left.startedAt + Patience(interval) ==>
                  Recovered(Step(t, Reap), repo, interval, left) && Due(Step(t, Reap).db[repo], t.now))
            && (LeftRunning(s, repo, interval, left) && t.now <= left.startedAt + Patience(interval) ==>
                  LeftRunning(t, repo, interval, left))
    decreases |run|
  {
    var t := After(s, run);
    if run != [] {
      StepInv(s, run[0]);
      if LeftRunning(s, repo, interval, left) {
        LeftRunningStep(s, run[0], repo, interval, left);
      } else {
        RecoveredStep(s, run[0], repo, interval, left);
      }
      CrashedRunIsReaped(Step(s, run[0]), run[1..], repo, interval, left);
      ClockForward(Step(s, run[0]), run[1..]);
    } else if LeftRunning(s, repo, interval, left) {
      LeftRunningStep(s, Reap, repo, interval, left);
    } else {
      RecoveredStep(s, Reap, repo, interval, left);
    }
  }

  lemma {:induction false} ClockForward(s: State, run: seq<Event>)
    requires CanRun(s, run)
    ensures After(s, run).now >= s.now
    decreases |run|
  {
    if run != [] { ClockForward(Step(s, run[0]), run[1..]); }
  }

  /** A crash between startRun and the first write of finishRun leaves exactly such a state. */
  lemma CrashLeavesRunning(s: State, repo: RepoId, interval: nat)
    requires TimeOk(s, repo, interval) && NewestRunning(s.db[repo].runs)
    ensures LeftRunning(Step(s, Crash), repo, interval, s.db[repo].runs[|s.db[repo].runs| - 1])
  {
  }

  // ---------------------------------------------------------------- which crashes the scheduler recovers from

  /** Only the clock and the reaper run: nobody asks for a sync by hand. */
  predicate SchedulerOnly(run: seq<Event>) {
    forall i :: 0 <= i < |run| ==> run[i].Tick? || run[i] == Reap
  }

  /** Nothing marks the repository's status as 'running' except a run the reaper can find. */
  ghost predicate Findable(r: Rows) {
    r.lastStatus == Running ==> exists i :: 0 <= i < |r.runs| && r.runs[i].status == Running
  }

  lemma {:induction false} UnfindableStays(s: State, run: seq<Event>, repo: RepoId)
    requires CanRun(s, run) && SchedulerOnly(run) && repo in s.db && !Findable(s.db[repo])
    ensures repo in After(s, run).db && After(s, run).db[repo] == s.db[repo]
    decreases |run|
  {
    if run != [] {
      assert Step(s, run[0]).db[repo] == s.db[repo];
      UnfindableStays(Step(s, run[0]), run[1..], repo);
    }
  }

  /**
   * Left to the scheduler, a mirror with a positive interval becomes due again after a crash if and only
   * if its 'running' status, if it has one, is backed by a run row that is still 'running'.
   */
  lemma RecoversIffFindable(s: State, repo: RepoId, interval: nat)
    requires TimeOk(s, repo, interval)
    ensures Findable(s.db[repo]) <==>
            exists run :: SchedulerOnly(run) && CanRun(s, run)
                          && repo in After(s, run).db && Due(After(s, run).db[repo], After(s, run).now)
  {
    if Findable(s.db[repo]) {
      var wait := WaitFor(s, repo);
      var run := [Tick(wait), Reap];
      var s1 := Step(s, Tick(wait));
      var s2 := Step(s1, Reap);
      assert run[1..] == [Reap] && [Reap][1..] == [];
      assert CanRun(s2, []) && CanRun(s1, [Reap]) && CanRun(s, run);
      assert After(s, run) == After(s1, [Reap]) == s2;
      if s.db[repo].lastStatus == Running {
        var i :| 0 <= i < |s.db[repo].runs| && s.db[repo].runs[i].status == Running;
        WaitLongEnough(s, repo, i);
        assert IsStuck(s1.db[repo].runs[i], interval, s1.now);
      }
      assert Due(s2.db[repo], s2.now);
    }
    if run :| SchedulerOnly(run) && CanRun(s, run)
              && repo in After(s, run).db && Due(After(s, run).db[repo], After(s, run).now) {
      if !Findable(s.db[repo]) { UnfindableStays(s, run, repo); }
    }
  }

  function LatestStart(runs: seq<Run>, floor: int): (t: int)
    ensures t >= floor && forall i :: 0 <= i < |runs| ==> runs[i].startedAt <= t
  {
    if runs == [] then floor
    else
      var rest := LatestStart(runs[..|runs| - 1], floor);
      assert forall i :: 0 <= i < |runs| - 1 ==> runs[..|runs| - 1][i] == runs[i];
      if runs[|runs| - 1].startedAt > rest then runs[|runs| - 1].startedAt else rest
  }

  function WaitFor(s: State, repo: RepoId): nat
    requires repo in s.db
  {
    LatestStart(s.db[repo].runs, s.now) - s.now + Patience(s.db[repo].interval) + 1
  }

  lemma WaitLongEnough(s: State, repo: RepoId, i: nat)
    requires repo in s.db && i < |s.db[repo].runs|
    ensures s.now + WaitFor(s, repo) > s.db[repo].runs[i].startedAt + Patience(s.db[repo].interval)
  {
  }

  /**
   * Where the crash struck decides: at any stage of a sync the mirror stays findable, except between
   * finishRun's two writes, and there unless the reaper had already marked the mirror failed.
   */
  lemma CrashStageDecides(s: State, t: Tid)
    requires Inv(s) && CrashFree(s) && At(s, t) && InCriticalSection(s.threads[t].phase)
    ensures Findable(Step(s, Crash).db[s.threads[t].repo])
       <==> !(s.threads[t].phase.RunWritten? && s.db[s.threads[t].repo].lastStatus == Running)
  {
    var r := s.db[s.threads[t].repo];
    assert StageOk(r, s.threads[t].phase);
  }

  /** Setting up a mirror with a positive interval starts the schedule TimeOk speaks of. */
  lemma ConfigureStartsSchedule(s: State, repo: RepoId, interval: nat)
    requires repo !in s.db && interval > 0
    ensures TimeOk(Step(s, Configure(repo, interval)), repo, interval)
  {
  }

  // ---------------------------------------------------------------- the service

  lemma {:induction false} RunAppend(s: State, first: seq<Event>, second: seq<Event>)
    requires CanRun(s, first) && CanRun(After(s, first), second)
    ensures CanRun(s, first + second) && After(s, first + second) == After(After(s, first), second)
    decreases |first|
  {
    if first == [] {
      assert first + second == second;
    } else {
      assert (first + second)[1..] == first[1..] + second;
      RunAppend(Step(s, first[0]), first[1..], second);
    }
  }

  lemma {:induction false} RunSnoc(s: State, run: seq<Event>, e: Event)
    requires CanRun(s, run) && Enabled(After(s, run), e)
    ensures CanRun(s, run + [e]) && After(s, run + [e]) == Step(After(s, run), e)
  {
    assert [e][1..] == [];
    assert CanRun(Step(After(s, run), e), []);
    RunAppend(s, run, [e]);
  }

  /** The steps of one SyncNow that finds the lock free, when the git transfer takes `elapsed`. */
  function SyncSteps(t: Tid, repo: RepoId, newLock: LockId, elapsed: nat, status: Status): seq<Event> {
    OpeningSteps(t, repo, newLock) + ClosingSteps(t, elapsed, status)
  }

  function OpeningSteps(t: Tid, repo: RepoId, newLock: LockId): seq<Event> {
    [] + [Call(t, repo, newLock)] + [Acquire(t)] + [Start(t)]
  }

  function ClosingSteps(t: Tid, elapsed: nat, status: Status): seq<Event> {
    [] + [Tick(elapsed)] + [WriteRun(t, status)] + [WriteMirror(t)] + [Prune(t)] + [Release(t)]
  }

  /** The rows after one sync that started at `start` and ended at `end`. */
  function SyncedRows(r: Rows, id: RunId, status: Status, start: int, end: int): Rows {
    var started := StartRows(r, id, start);
    PruneRows(FinishRows(started.(runs := SetStatus(started.runs, id, status)), status, end))
  }

  lemma SyncedRowsEnd(r: Rows, id: RunId, status: Status, start: int, end: int)
    ensures var r' := SyncedRows(r, id, status, start, end);
            && r'.lastStatus == status && |r'.runs| == (if |r.runs| >= 50 then 50 else |r.runs| + 1)
            && r'.runs[|r'.runs| - 1] == Run(id, start, status)
            && r'.nextRun == (if r.interval > 0 then Some(end + r.interval * 1_000_000) else None)
  {
  }

  lemma {:induction false} SyncStepsRun(s: State, t: Tid, repo: RepoId, newLock: LockId, elapsed: nat, status: Status)
    requires s.threads == map[] && s.owner == map[] && repo in s.db && newLock !in s.locks.Values
    requires s.db[repo].runs != [] ==> s.db[repo].runs[|s.db[repo].runs| - 1].startedAt < s.now
    requires status == Success || status == Failed
    ensures var run := SyncSteps(t, repo, newLock, elapsed, status);
            CanRun(s, run) &&
            After(s, run) == State(s.now + elapsed,
                                   s.db[repo := SyncedRows(s.db[repo], s.nextId, status, s.now, s.now + elapsed)],
                                   LockFor(s.locks, repo, newLock).1, map[], map[], s.nextId + 1)
  {
    var (lock, locks) := LockFor(s.locks, repo, newLock);
    SyncOpening(s, t, repo, newLock);
    var s3 := State(s.now, s.db[repo := StartRows(s.db[repo], s.nextId, s.now)], locks, map[lock := t],
                    map[t := Thread(repo, lock, Syncing(s.nextId))], s.nextId + 1);
    SyncClosing(s3, t, repo, lock, s.nextId, elapsed, status);
    RunAppend(s, OpeningSteps(t, repo, newLock), ClosingSteps(t, elapsed, status));
    SetTwice(s.db, repo, s3.db[repo], SyncedRows(s.db[repo], s.nextId, status, s.now, s.now + elapsed));
  }

  lemma SetTwice(db: map<RepoId, Rows>, repo: RepoId, first: Rows, second: Rows)
    ensures db[repo := first][repo := second] == db[repo := second]
  {
  }

  lemma {:induction false} SyncClosing(s: State, t: Tid, repo: RepoId, lock: LockId, id: RunId, elapsed: nat,
                                       status: Status)
    requires repo in s.db && s.owner == map[lock := t] && s.threads == map[t := Thread(repo, lock, Syncing(id))]
    requires status == Success || status == Failed
    ensures var run := ClosingSteps(t, elapsed, status);
            var r := s.db[repo];
            var rows := PruneRows(FinishRows(r.(runs := SetStatus(r.runs, id, status)), status, s.now + elapsed));
            CanRun(s, run) &&
            After(s, run) == State(s.now + elapsed, s.db[repo := rows], s.locks, map[], map[], s.nextId)
  {
    var written := s.db[repo].(runs := SetStatus(s.db[repo].runs, id, status));
    var s2 := s.(now := s.now + elapsed, db := s.db[repo := written],
                 threads := map[t := Thread(repo, lock, RunWritten(status))]);
    var r1 := [Tick(elapsed), WriteRun(t, status)];
    var r2 := [WriteMirror(t), Prune(t), Release(t)];
    SyncTransfer(s, t, repo, lock, id, elapsed, status);
    SyncTail(s2, t, repo, lock, status, FinishRows(written, status, s.now + elapsed));
    RunAppend(s, r1, r2);
    assert ClosingSteps(t, elapsed, status) == r1 + r2;
  }

  lemma {:induction false} TwoSteps(s: State, e1: Event, e2: Event)
    requires Enabled(s, e1) && Enabled(Step(s, e1), e2)
    ensures CanRun(s, [e1, e2]) && After(s, [e1, e2]) == Step(Step(s, e1), e2)
  {
    RunSnoc(s, [], e1);
    assert [] + [e1] == [e1] && [e1] + [e2] == [e1, e2];
    RunSnoc(s, [e1], e2);
  }

  lemma {:induction false} SyncTransfer(s: State, t: Tid, repo: RepoId, lock: LockId, id: RunId, elapsed: nat,
                                        status: Status)
    requires repo in s.db && s.threads == map[t := Thread(repo, lock, Syncing(id))]
    requires status == Success || status == Failed
    ensures var run := [Tick(elapsed), WriteRun(t, status)];
            CanRun(s, run) &&
            After(s, run) == s.(now := s.now + elapsed, threads := map[t := Thread(repo, lock, RunWritten(status))],
                                db := s.db[repo := s.db[repo].(runs := SetStatus(s.db[repo].runs, id, status))])
  {
    TwoSteps(s, Tick(elapsed), WriteRun(t, status));
  }

  lemma {:induction false} SyncTail(s: State, t: Tid, repo: RepoId, lock: LockId, status: Status, finished: Rows)
    requires repo in s.db && s.owner == map[lock := t] && s.threads == map[t := Thread(repo, lock, RunWritten(status))]
    requires finished == FinishRows(s.db[repo], status, s.now)
    ensures var run := [WriteMirror(t), Prune(t), Release(t)];
            CanRun(s, run) &&
            After(s, run) == s.(db := s.db[repo := PruneRows(finished)], owner := map[], threads := map[])
  {
    var s3 := s.(db := s.db[repo := finished], threads := map[t := Thread(repo, lock, MirrorWritten)]);
    assert Step(s, WriteMirror(t)) == s3;
    var s4 := s3.(db := s.db[repo := PruneRows(finished)], threads := map[t := Thread(repo, lock, Pruned)]);
    assert Step(s3, Prune(t)) == s4;
    assert Step(s4, Release(t)) == s4.(owner := map[], threads := map[]);
    TwoSteps(s3, Prune(t), Release(t));
    assert [WriteMirror(t), Prune(t), Release(t)][1..] == [Prune(t), Release(t)];
  }

  lemma {:induction false} SyncOpening(s: State, t: Tid, repo: RepoId, newLock: LockId)
    requires s.threads == map[] && s.owner == map[] && repo in s.db && newLock !in s.locks.Values
    requires s.db[repo].runs != [] ==> s.db[repo].runs[|s.db[repo].runs| - 1].startedAt < s.now
    ensures var run := [] + [Call(t, repo, newLock)] + [Acquire(t)] + [Start(t)];
            var (lock, locks) := LockFor(s.locks, repo, newLock);
            CanRun(s, run) &&
            After(s, run) == State(s.now, s.db[repo := StartRows(s.db[repo], s.nextId, s.now)], locks,
                                   map[lock := t], map[t := Thread(repo, lock, Syncing(s.nextId))], s.nextId + 1)
  {
    var (lock, locks) := LockFor(s.locks, repo, newLock);
    RunSnoc(s, [], Call(t, repo, newLock));
    var s1 := s.(locks := locks, threads := map[t := Thread(repo, lock, Waiting)]);
    assert Step(s, Call(t, repo, newLock)) == s1;
    RunSnoc(s, [] + [Call(t, repo, newLock)], Acquire(t));
    var s2 := s1.(owner := map[lock := t], threads := map[t := Thread(repo, lock, Holding)]);
    assert Step(s1, Acquire(t)) == s2;
    RunSnoc(s, [] + [Call(t, repo, newLock)] + [Acquire(t)], Start(t));
  }

  datatype ConfigureRequest = ConfigureRequest(direction: string, owner: string, name: string, interval: int,
                                               token: string, clearToken: bool)

  datatype ConfigureError = InvalidDirection | InvalidTarget | InvalidInterval | TokenRequired

  /** A push mirror needs a token, given now or stored before. */
  function ConfigureRefusal(req: ConfigureRequest, hasToken: bool): (r: Option<ConfigureError>)
    ensures r.None? <==>
              && (req.direction == "push" || req.direction == "pull") && req.owner != "" && req.name != ""
              && req.interval >= 0 && (req.direction == "push" ==> req.token != "" || hasToken)
  {
    if req.direction != "push" && req.direction != "pull" then Some(InvalidDirection)
    else if req.owner == "" || req.name == "" then Some(InvalidTarget)
    else if req.interval < 0 then Some(InvalidInterval)
    else if req.direction == "push" && req.token == "" && !hasToken then Some(TokenRequired)
    else None
  }

  class MirrorService {
    var now: int
    var db: map<RepoId, Rows>
    var withToken: set<RepoId>
    var locks: map<RepoId, LockId>
    var nextId: RunId

    /** The state between calls: no goroutine in SyncNow. */
    ghost function Snapshot(): State
      reads this
    {
      State(now, db, locks, map[], map[], nextId)
    }

    /** Configure: the refusals in their order, then one upsert. A negative interval is refused. */
    method ConfigureMirror(repo: RepoId, req: ConfigureRequest) returns (refusal: Option<ConfigureError>)
      modifies this`db, this`withToken
      ensures refusal == ConfigureRefusal(req, repo in old(db) && repo in old(withToken))
      ensures refusal == Some(InvalidDirection) <==> req.direction != "push" && req.direction != "pull"
      ensures refusal == Some(InvalidTarget) <==>
                (req.direction == "push" || req.direction == "pull") && (req.owner == "" || req.name == "")
      ensures refusal == Some(InvalidInterval) <==>
                && (req.direction == "push" || req.direction == "pull") && req.owner != "" && req.name != ""
                && req.interval < 0
      ensures refusal == Some(TokenRequired) <==>
                && req.direction == "push" && req.owner != "" && req.name != "" && req.interval >= 0
                && req.token == "" && !(repo in old(db) && repo in old(withToken))
      ensures refusal.None? ==> repo in db && db - {repo} == old(db) - {repo}
      ensures refusal.None? && repo in old(db) ==>
                req.interval >= 0 && db[repo] == old(db)[repo].(interval := req.interval)
      ensures refusal.None? && repo !in old(db) ==>
                req.interval >= 0 && db[repo] == Rows(req.interval, Pending, Some(now), [])
      ensures refusal.None? ==> req.interval >= 0 && Snapshot() == Step(old(Snapshot()), Configure(repo, req.interval))
      ensures refusal.None? ==> withToken - {repo} == old(withToken) - {repo}
      ensures refusal.None? ==>
                (repo in withToken <==>
                 !req.clearToken && (req.token != "" || (repo in old(db) && repo in old(withToken))))
      ensures refusal.Some? ==> Snapshot() == old(Snapshot()) && withToken == old(withToken)
    {
      if req.direction != "push" && req.direction != "pull" { return Some(InvalidDirection); }
      if req.owner == "" || req.name == "" { return Some(InvalidTarget); }
      if req.interval < 0 { return Some(InvalidInterval); }
      if req.direction == "push" && req.token == "" {
        if repo !in db || repo !in withToken { return Some(TokenRequired); }
      }
      if req.clearToken || (req.token == "" && repo !in db) {
        withToken := withToken - {repo};
      } else if req.token != "" {
        withToken := withToken + {repo};
      }
      if repo in db {
        db := db[repo := db[repo].(interval := req.interval)];
      } else {
        db := db[repo := Rows(req.interval, Pending, Some(now), [])];
      }
      refusal := None;
    }

    /** A repository keeps the mutex it was first given. */
    method MutexFor(repo: RepoId, newLock: LockId) returns (lock: LockId)
      modifies this`locks
      ensures (lock, locks) == LockFor(old(locks), repo, newLock)
      ensures repo in locks && locks[repo] == lock && (repo !in old(locks) ==> lock == newLock)
      ensures forall r :: r in old(locks) ==> r in locks && locks[r] == old(locks)[r]
    {
      if repo in locks { return locks[repo]; }
      locks := locks[repo := newLock];
      return newLock;
    }

    method StartRun(repo: RepoId) returns (id: RunId)
      requires repo in db
      modifies this`db, this`nextId
      ensures id == old(nextId) && nextId == id + 1
      ensures db == old(db)[repo := StartRows(old(db)[repo], id, now)]
      ensures db[repo].runs == old(db)[repo].runs + [Run(id, now, Running)] && db[repo].lastStatus == Running
      ensures db[repo].interval == old(db)[repo].interval && db[repo].nextRun == old(db)[repo].nextRun
    {
      id := nextId;
      nextId := nextId + 1;
      db := db[repo := db[repo].(runs := db[repo].runs + [Run(id, now, Running)], lastStatus := Running)];
    }

    /** The three writes of finishRun. */
    method FinishRun(id: RunId, repo: RepoId, status: Status)
      requires repo in db
      modifies this`db
      ensures db == old(db)[repo := PruneRows(FinishRows(
                      old(db)[repo].(runs := SetStatus(old(db)[repo].runs, id, status)), status, now))]
      ensures var r, r' := old(db)[repo], db[repo];
              && r'.interval == r.interval && r'.lastStatus == status
              && r'.nextRun == (if r.interval > 0 then Some(now + r.interval * 1_000_000) else None)
              && |r'.runs| == (if |r.runs| > 50 then 50 else |r.runs|)
              && forall i :: 0 <= i < |r'.runs| ==>
                   var run := r.runs[|r.runs| - |r'.runs| + i];
                   r'.runs[i] == if run.id == id then run.(status := status) else run
    {
      var r := db[repo];
      db := db[repo := r.(runs := SetStatus(r.runs, id, status))];
      db := db[repo := db[repo].(lastStatus := status,
               nextRun := if r.interval > 0 then Some(now + r.interval * SECOND) else None)];
      if |db[repo].runs| > RETENTION {
        db := db[repo := db[repo].(runs := db[repo].runs[|db[repo].runs| - RETENTION..])];
      }
    }

    /** A sync of a configured mirror that nothing disturbs. */
    method PerformSync(repo: RepoId, elapsed: nat, outcome: Status) returns (id: RunId)
      requires repo in db
      modifies this`db, this`nextId, this`now
      ensures id == old(nextId) && nextId == id + 1 && now == old(now) + elapsed
      ensures db == old(db)[repo := SyncedRows(old(db)[repo], id, outcome, old(now), now)]
    {
      id := StartRun(repo);
      now := now + elapsed;
      FinishRun(id, repo, outcome);
    }

    /** None is ErrMirrorNotFound. `outcome` and `elapsed` are the git transfer's. */
    method SyncNow(ghost t: Tid, repo: RepoId, newLock: LockId, elapsed: nat, outcome: Status)
      returns (result: Option<(RunId, Status)>)
      requires newLock !in locks.Values && (outcome == Success || outcome == Failed)
      requires repo in db && db[repo].runs != [] ==> db[repo].runs[|db[repo].runs| - 1].startedAt < now
      modifies this
      ensures result.Some? <==> repo in old(db)
      ensures result.None? ==> db == old(db) && now == old(now)
      ensures result.Some? ==>
                && result.value == (old(nextId), outcome)
                && var run := SyncSteps(t, repo, newLock, elapsed, outcome);
                   CanRun(old(Snapshot()), run) && Snapshot() == After(old(Snapshot()), run)
      ensures result.Some? ==>
                && now == old(now) + elapsed && repo in db && db - {repo} == old(db) - {repo}
                && var r, r' := old(db)[repo], db[repo];
                   && r'.lastStatus == outcome && |r'.runs| == (if |r.runs| >= 50 then 50 else |r.runs| + 1)
                   && r'.runs[|r'.runs| - 1] == Run(result.value.0, old(now), outcome)
                   && r'.nextRun == (if r.interval > 0 then Some(now + r.interval * 1_000_000) else None)
    {
      ghost var before := Snapshot();
      var _ := MutexFor(repo, newLock);
      if repo !in db { return None; }
      SyncStepsRun(before, t, repo, newLock, elapsed, outcome);
      var id := PerformSync(repo, elapsed, outcome);
      SyncedRowsEnd(before.db[repo], id, outcome, before.now, now);
      result := Some((id, outcome));
    }

    /** Returns the number of mirror rows reset. */
    method ReapStuck() returns (count: nat)
      modifies this`db
      ensures Snapshot() == Step(old(Snapshot()), Reap)
      ensures db.Keys == old(db).Keys
      ensures forall repo :: repo in db ==>
                var r, r' := old(db)[repo], db[repo];
                var limit := now - 3 * (if r.interval > 600 then r.interval else 600) * 1_000_000;
                && r'.interval == r.interval && r'.nextRun == r.nextRun && |r'.runs| == |r.runs|
                && (forall i :: 0 <= i < |r.runs| ==>
                      r'.runs[i] == if r.runs[i].status == Running && r.runs[i].startedAt < limit
                                    then r.runs[i].(status := Failed) else r.runs[i])
                && r'.lastStatus == if exists i | 0 <= i < |r.runs| ::
                                         r.runs[i].status == Running && r.runs[i].startedAt < limit
                                    then Failed else r.lastStatus
      ensures count == |set repo | repo in old(db) && HasStuck(old(db)[repo], now)|
    {
      ghost var was := db;
      var reaped := FailAllStuck();
      MarkFailed(reaped);
      count := |reaped|;
      assert db == ReapAll(was, now);
    }

    /** The first of its two updates, on the run rows; `reaped` are the repositories of the rows it changed. */
    method FailAllStuck() returns (reaped: set<RepoId>)
      modifies this`db
      ensures db == map repo | repo in old(db) :: RunsReaped(old(db)[repo], now)
      ensures reaped == set repo | repo in old(db) && HasStuck(old(db)[repo], now)
    {
      var todo := db.Keys;
      reaped := {};
      while todo != {}
        invariant todo <= old(db).Keys && db.Keys == old(db).Keys
        invariant forall r :: r in old(db) ==> db[r] == if r in todo then old(db)[r] else RunsReaped(old(db)[r], now)
        invariant forall r :: r in reaped <==> r in old(db) && r !in todo && HasStuck(old(db)[r], now)
      {
        var repo :| repo in todo;
        var any := FailStuckRuns(repo);
        if any { reaped := reaped + {repo}; }
        todo := todo - {repo};
      }
    }

    /** The second, on the mirror rows of those repositories. */
    method MarkFailed(repos: set<RepoId>)
      requires repos <= db.Keys
      modifies this`db
      ensures db == map r | r in old(db) :: if r in repos then old(db)[r].(lastStatus := Failed) else old(db)[r]
    {
      var todo := repos;
      while todo != {}
        invariant todo <= repos && db.Keys == old(db).Keys
        invariant forall r :: r in old(db) ==>
                    db[r] == if r in repos && r !in todo then old(db)[r].(lastStatus := Failed) else old(db)[r]
      {
        var repo :| repo in todo;
        db := db[repo := db[repo].(lastStatus := Failed)];
        todo := todo - {repo};
      }
    }

    /** The same on one repository's runs; whether it found any. */
    method FailStuckRuns(repo: RepoId) returns (any: bool)
      requires repo in db
      modifies this`db
      ensures db == old(db)[repo := RunsReaped(old(db)[repo], now)]
      ensures any <==> HasStuck(old(db)[repo], now)
    {
      var r := db[repo];
      var runs := r.runs;
      any := false;
      for i := 0 to |runs|
        invariant |runs| == |r.runs| && forall k :: i <= k < |runs| ==> runs[k] == r.runs[k]
        invariant forall k :: 0 <= k < i ==> runs[k] == FailStuck(r.runs, r.interval, now)[k]
        invariant any <==> exists k | 0 <= k < i :: IsStuck(r.runs[k], r.interval, now)
      {
        if runs[i].status == Running && runs[i].startedAt < now - Patience(r.interval) {
          runs := runs[i := runs[i].(status := Failed)];
          any := true;
        }
      }
      assert runs == FailStuck(r.runs, r.interval, now);
      db := db[repo := r.(runs := runs)];
    }

    /** The query of RunDue: up to 50 due mirrors, each once, and all of them if there are no more. */
    method SelectDue() returns (ids: seq<RepoId>)
      ensures |ids| <= 50 && NoDup(ids)
      ensures forall id :: id in ids ==>
                && id in db && db[id].interval > 0 && db[id].lastStatus != Running
                && (db[id].nextRun == None || db[id].nextRun.value <= now)
      ensures |ids| < 50 ==>
                forall id | && id in db && db[id].interval > 0 && db[id].lastStatus != Running
                            && (db[id].nextRun == None || db[id].nextRun.value <= now) :: id in ids
    {
      ids := [];
      var todo := db.Keys;
      while todo != {} && |ids| < 50
        invariant |ids| <= 50 && NoDup(ids) && todo <= db.Keys
        invariant forall id :: id in ids ==> id in db && id !in todo && Due(db[id], now)
        invariant forall id :: id in db && id !in todo && Due(db[id], now) ==> id in ids
      {
        var id :| id in todo;
        todo := todo - {id};
        if Due(db[id], now) { ids := ids + [id]; }
      }
    }
  }

  /** The rows between the two updates of ReapStuck. */
  function RunsReaped(r: Rows, now: int): Rows {
    r.(runs := FailStuck(r.runs, r.interval, now))
  }
}
