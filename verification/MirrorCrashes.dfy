/**
 * What crashes of a mirror sync leave behind (internal/services/mirror/service.go): when the schedule had come round
 * before the crashed run began, which runs end in a mirror nobody picks up again, and when the reaper contradicts a
 * later run.
 */
module MirrorCrashes {
  import opened Common
  import opened Mirror

  // ---------------------------------------------------------------- next_run_at as history

  /** Event `e` is finishRun's write of the mirror row of `repo`. */
  predicate Finishes(s: State, e: Event, repo: RepoId) {
    e.WriteMirror? && e.t in s.threads && s.threads[e.t].repo == repo
  }

  /** When the run last wrote the mirror row of `repo` at the end of a sync. */
  function LastFinish(s: State, run: seq<Event>, repo: RepoId): Option<int>
    requires CanRun(s, run)
    decreases |run|
  {
    if run == [] then None
    else
      var later := LastFinish(Step(s, run[0]), run[1..], repo);
      if later.Some? then later else if Finishes(s, run[0], repo) then Some(s.now) else None
  }

  /** When the run first configured `repo`. */
  function CreatedAt(s: State, run: seq<Event>, repo: RepoId): Option<int>
    requires CanRun(s, run)
    decreases |run|
  {
    if run == [] then None
    else if run[0].Configure? && run[0].repo == repo then Some(s.now)
    else CreatedAt(Step(s, run[0]), run[1..], repo)
  }

  /** Whenever `repo` is configured, it is with this positive interval. */
  predicate FixedInterval(run: seq<Event>, repo: RepoId, interval: nat) {
    && interval > 0
    && forall i :: 0 <= i < |run| && run[i].Configure? && run[i].repo == repo ==> run[i].interval == interval
  }

  /** One step of the history: only the end of a sync, or the first Configure, moves the schedule. */
  lemma ScheduleMoves(s: State, e: Event, repo: RepoId, interval: nat)
    requires Enabled(s, e) && repo in Step(s, e).db && (repo in s.db ==> s.db[repo].interval == interval)
    requires e.Configure? && e.repo == repo ==> e.interval == interval
    ensures Step(s, e).db[repo].interval == interval
    ensures Finishes(s, e, repo) && interval > 0 ==> Step(s, e).db[repo].nextRun == Some(s.now + interval * SECOND)
    ensures !Finishes(s, e, repo) && repo in s.db ==> Step(s, e).db[repo].nextRun == s.db[repo].nextRun
    ensures repo !in s.db ==> e.Configure? && e.repo == repo && Step(s, e).db[repo].nextRun == Some(s.now)
  {
  }

  lemma {:induction false} ScheduleFromHere(s: State, run: seq<Event>, repo: RepoId, interval: nat)
    requires CanRun(s, run) && FixedInterval(run, repo, interval) && repo in After(s, run).db
    requires repo in s.db ==> s.db[repo].interval == interval
    ensures var r, last := After(s, run).db[repo], LastFinish(s, run, repo);
            && r.interval == interval
            && r.nextRun == if last.Some? then Some(last.value + interval * SECOND)
                            else if repo in s.db then s.db[repo].nextRun
                            else CreatedAt(s, run, repo)
    decreases |run|
  {
    if run != [] {
      if repo in Step(s, run[0]).db { ScheduleMoves(s, run[0], repo, interval); }
      ScheduleFromHere(Step(s, run[0]), run[1..], repo, interval);
    }
  }

  /**
   * In every run from the start, crashes included, in which `repo` keeps one positive interval: its next_run_at is
   * the time its mirror row was last written at the end of a sync plus the interval, or the time it was configured
   * first if none has ended.
   */
  lemma {:induction false} ScheduleIsHistory(s: State, run: seq<Event>, repo: RepoId, interval: nat)
    requires Initial(s) && CanRun(s, run) && FixedInterval(run, repo, interval) && repo in After(s, run).db
    ensures CreatedAt(s, run, repo).Some?
    ensures var last := LastFinish(s, run, repo);
            After(s, run).db[repo].nextRun
            == Some(if last.Some? then last.value + interval * 1_000_000 else CreatedAt(s, run, repo).value)
  {
    ScheduleFromHere(s, run, repo, interval);
    AppearsByConfigure(s, run, repo);
  }

  /**
   * In every such run, the scheduler would select the mirror now if and only if it is not 'running' and no sync of it
   * has ended yet, or the interval has passed since the last one ended: never more often than once an interval.
   */
  lemma SelectedIff(s: State, run: seq<Event>, repo: RepoId, interval: nat)
    requires Initial(s) && CanRun(s, run) && FixedInterval(run, repo, interval) && repo in After(s, run).db
    ensures var t, last := After(s, run), LastFinish(s, run, repo);
            Due(t.db[repo], t.now) <==>
              && t.db[repo].lastStatus != Running
              && (last.None? || last.value + interval * 1_000_000 <= t.now)
  {
    ScheduleFromHere(s, run, repo, interval);
    AppearsByConfigure(s, run, repo);
  }

  lemma {:induction false} AppearsByConfigure(s: State, run: seq<Event>, repo: RepoId)
    requires CanRun(s, run) && repo !in s.db && repo in After(s, run).db
    ensures CreatedAt(s, run, repo).Some? && CreatedAt(s, run, repo).value <= After(s, run).now
    decreases |run|
  {
    if run != [] {
      if run[0].Configure? && run[0].repo == repo {
        ClockForward(s, run);
      } else {
        AppearsByConfigure(Step(s, run[0]), run[1..], repo);
      }
    }
  }

  /** In every such run, TimeOk holds once the mirror is set up. */
  lemma {:induction false} RunTimeOk(s: State, run: seq<Event>, repo: RepoId, interval: nat)
    requires Inv(s) && CanRun(s, run) && FixedInterval(run, repo, interval)
    requires repo in s.db ==> TimeOk(s, repo, interval)
    ensures Inv(After(s, run)) && (repo in After(s, run).db ==> TimeOk(After(s, run), repo, interval))
    decreases |run|
  {
    if run != [] {
      StepInv(s, run[0]);
      if repo in s.db {
        TimeStep(s, run[0], repo, interval);
      } else if run[0].Configure? && run[0].repo == repo {
        ConfigureStartsSchedule(s, repo, interval);
      }
      RunTimeOk(Step(s, run[0]), run[1..], repo, interval);
    }
  }

  // ---------------------------------------------------------------- a sync that a crash cuts off

  predicate SyncsRun(s: State, t: Tid, id: RunId) {
    t in s.threads && s.threads[t].phase == Syncing(id)
  }

  lemma {:induction false} NeverSyncsAgain(s: State, run: seq<Event>, t: Tid, id: RunId)
    requires CanRun(s, run) && id < s.nextId && !SyncsRun(s, t, id)
    ensures !SyncsRun(After(s, run), t, id)
    decreases |run|
  {
    if run != [] {
      assert !SyncsRun(Step(s, run[0]), t, id) && id < Step(s, run[0]).nextId;
      NeverSyncsAgain(Step(s, run[0]), run[1..], t, id);
    }
  }

  /** Goroutine `t` is the only one past the lock of its repository, which has a run. */
  ghost predicate TransfersAlone(s: State, t: Tid) {
    && At(s, t) && s.db[s.threads[t].repo].runs != []
    && forall u :: u in s.threads && s.threads[u].repo == s.threads[t].repo && InCriticalSection(s.threads[u].phase) ==>
         u == t
  }

  lemma SyncsAlone(s: State, t: Tid, id: RunId)
    requires Inv(s) && SyncsRun(s, t, id)
    ensures TransfersAlone(s, t)
  {
    assert PhaseOk(s, t);
    forall u | u in s.threads && s.threads[u].repo == s.threads[t].repo && InCriticalSection(s.threads[u].phase)
      ensures u == t
    {
      OneOwner(s, u, t);
    }
  }

  /** While a goroutine transfers, nobody else starts or ends a sync of its repository. */
  lemma TransferKeeps(s: State, e: Event, t: Tid, id: RunId)
    requires Enabled(s, e) && TransfersAlone(s, t) && SyncsRun(s, t, id) && SyncsRun(Step(s, e), t, id)
    ensures var repo, s' := s.threads[t].repo, Step(s, e);
            && s'.threads[t].repo == repo && repo in s'.db
            && s'.db[repo].nextRun == s.db[repo].nextRun
            && NewestIs(s.db[repo].runs, s'.db[repo].runs)
  {
  }

  predicate NewestIs(before: seq<Run>, after: seq<Run>) {
    && before != [] && after != []
    && after[|after| - 1].startedAt == before[|before| - 1].startedAt
    && after[|after| - 1].id == before[|before| - 1].id
  }

  lemma {:induction false} TransferKeepsAll(s: State, run: seq<Event>, t: Tid, id: RunId)
    requires Inv(s) && CanRun(s, run) && id < s.nextId && SyncsRun(s, t, id) && SyncsRun(After(s, run), t, id)
    ensures var repo, s' := s.threads[t].repo, After(s, run);
            && s'.threads[t].repo == repo && repo in s.db && repo in s'.db
            && s'.db[repo].nextRun == s.db[repo].nextRun
            && NewestIs(s.db[repo].runs, s'.db[repo].runs)
    decreases |run|
  {
    SyncsAlone(s, t, id);
    if run != [] {
      if !SyncsRun(Step(s, run[0]), t, id) { NeverSyncsAgain(Step(s, run[0]), run[1..], t, id); }
      StepInv(s, run[0]);
      TransferKeeps(s, run[0], t, id);
      TransferKeepsAll(Step(s, run[0]), run[1..], t, id);
    }
  }

  /** Goroutine `t` starts a sync after `before` and still transfers when, after `during`, the process crashes. */
  datatype CutOff = CutOff(before: seq<Event>, t: Tid, during: seq<Event>)

  ghost predicate IsCutOff(s: State, c: CutOff, repo: RepoId, interval: nat) {
    && CanRun(s, c.before) && FixedInterval(c.before, repo, interval) && FixedInterval(c.during, repo, interval)
    && var start := After(s, c.before);
    && Enabled(start, Start(c.t)) && start.threads[c.t].repo == repo
    && CanRun(Step(start, Start(c.t)), c.during)
    && var crash := After(Step(start, Start(c.t)), c.during);
    && SyncsRun(crash, c.t, start.nextId) && repo in crash.db && NewestRunning(crash.db[repo].runs)
  }

  function AtCrash(s: State, c: CutOff, repo: RepoId, interval: nat): State
    requires IsCutOff(s, c, repo, interval)
  {
    Step(After(Step(After(s, c.before), Start(c.t)), c.during), Crash)
  }

  /** The run that such a crash left behind. */
  function LeftBehind(s: State, c: CutOff): Run
    requires CanRun(s, c.before)
  {
    Run(After(s, c.before).nextId, After(s, c.before).now, Running)
  }

  lemma {:induction false} CutOffIsLeftRunning(s: State, c: CutOff, repo: RepoId, interval: nat)
    requires Initial(s) && IsCutOff(s, c, repo, interval)
    ensures Inv(AtCrash(s, c, repo, interval))
    ensures LeftRunning(AtCrash(s, c, repo, interval), repo, interval, LeftBehind(s, c))
    ensures repo in After(s, c.before).db
    ensures AtCrash(s, c, repo, interval).db[repo].nextRun == After(s, c.before).db[repo].nextRun
  {
    InitialInv(s);
    RunTimeOk(s, c.before, repo, interval);
    var start := After(s, c.before);
    var syncing := Step(start, Start(c.t));
    StartIsSyncing(start, c.t, interval);
    RunInv(syncing, c.during);
    CrashInv(After(syncing, c.during));
    SyncingIsLeftRunning(syncing, c.t, start.nextId, c.during, repo, interval);
  }

  lemma StartIsSyncing(s: State, t: Tid, interval: nat)
    requires Inv(s) && Enabled(s, Start(t)) && TimeOk(s, s.threads[t].repo, interval)
    ensures var repo, s' := s.threads[t].repo, Step(s, Start(t));
            && Inv(s') && TimeOk(s', repo, interval) && SyncsRun(s', t, s.nextId) && s'.threads[t].repo == repo
            && s'.db[repo].nextRun == s.db[repo].nextRun && s.nextId < s'.nextId
            && s'.db[repo].runs != [] && s'.db[repo].runs[|s'.db[repo].runs| - 1] == Run(s.nextId, s.now, Running)
  {
    StepInv(s, Start(t));
    TimeStep(s, Start(t), s.threads[t].repo, interval);
  }

  lemma {:induction false} SyncingIsLeftRunning(s: State, t: Tid, id: RunId, during: seq<Event>, repo: RepoId,
                                                interval: nat)
    requires Inv(s) && TimeOk(s, repo, interval) && SyncsRun(s, t, id) && s.threads[t].repo == repo && id < s.nextId
    requires CanRun(s, during) && FixedInterval(during, repo, interval) && SyncsRun(After(s, during), t, id)
    requires repo in After(s, during).db && NewestRunning(After(s, during).db[repo].runs)
    requires s.db[repo].runs != []
    ensures var crashed := Step(After(s, during), Crash);
            && repo in crashed.db && crashed.db[repo].nextRun == s.db[repo].nextRun
            && LeftRunning(crashed, repo, interval, s.db[repo].runs[|s.db[repo].runs| - 1].(status := Running))
  {
    StillTimeOk(s, during, repo, interval);
    TransferKeepsAll(s, during, t, id);
    CrashLeavesRunning(After(s, during), repo, interval);
  }

  lemma {:induction false} StillTimeOk(s: State, run: seq<Event>, repo: RepoId, interval: nat)
    requires Inv(s) && TimeOk(s, repo, interval) && CanRun(s, run) && FixedInterval(run, repo, interval)
    requires repo in After(s, run).db
    ensures TimeOk(After(s, run), repo, interval)
  {
    RunTimeOk(s, run, repo, interval);
  }

  // ---------------------------------------------------------------- next_run_at of a reaped mirror

  /** Until it is next synced or configured, the schedule of a crashed or reaped mirror does not move. */
  lemma ScheduleStays(s: State, e: Event, repo: RepoId, interval: nat, run: Run)
    requires Inv(s) && Enabled(s, e) && LeavesAlone(s, e, repo)
    requires LeftRunning(s, repo, interval, run) || Recovered(s, repo, interval, run)
    ensures repo in Step(s, e).db && Step(s, e).db[repo].nextRun == s.db[repo].nextRun
  {
  }

  lemma {:induction false} ScheduleStaysAll(s: State, run: seq<Event>, repo: RepoId, interval: nat, left: Run)
    requires Inv(s) && CanRun(s, run) && AllLeaveAlone(s, run, repo)
    requires LeftRunning(s, repo, interval, left) || Recovered(s, repo, interval, left)
    ensures repo in After(s, run).db && After(s, run).db[repo].nextRun == s.db[repo].nextRun
    decreases |run|
  {
    if run != [] {
      StepInv(s, run[0]);
      ScheduleStays(s, run[0], repo, interval, left);
      if LeftRunning(s, repo, interval, left) {
        LeftRunningStep(s, run[0], repo, interval, left);
      } else {
        RecoveredStep(s, run[0], repo, interval, left);
      }
      ScheduleStaysAll(Step(s, run[0]), run[1..], repo, interval, left);
    }
  }

  /**
   * In every run from the start in which `repo` keeps one positive interval: a sync that a crash cuts off while it
   * transfers is failed, whatever else happens, by any pass of the reaper later than its start plus
   * 3 * max(interval, 600) seconds, and the mirror is then due; the next_run_at that stood when it started stands.
   */
  lemma {:induction false} CrashedSyncIsDueAgain(s: State, c: CutOff, later: seq<Event>, repo: RepoId, interval: nat)
    requires Initial(s) && IsCutOff(s, c, repo, interval)
    requires CanRun(AtCrash(s, c, repo, interval), later) && AllLeaveAlone(AtCrash(s, c, repo, interval), later, repo)
    requires After(AtCrash(s, c, repo, interval), later).now > After(s, c.before).now + Patience(interval)
    ensures repo in After(s, c.before).db
    ensures var end := Step(After(AtCrash(s, c, repo, interval), later), Reap);
            && Recovered(end, repo, interval, LeftBehind(s, c)) && Due(end.db[repo], end.now)
            && end.db[repo].nextRun == After(s, c.before).db[repo].nextRun
  {
    var crashed, left := AtCrash(s, c, repo, interval), LeftBehind(s, c);
    CutOffIsLeftRunning(s, c, repo, interval);
    CrashedRunIsReaped(crashed, later, repo, interval, left);
    ScheduleStaysAll(crashed, later, repo, interval, left);
    ScheduleStays(After(crashed, later), Reap, repo, interval, left);
  }

  /**
   * So the next_run_at that the reaper leaves was already in the past when that sync started if and only if no sync
   * of the repository had ended before, or the interval had passed since the last one had. A sync started earlier, by
   * hand or by a push, is left with a next_run_at later than its start.
   */
  lemma {:induction false} ReapedScheduleWasPastIff(s: State, c: CutOff, later: seq<Event>, repo: RepoId, interval: nat)
    requires Initial(s) && IsCutOff(s, c, repo, interval)
    requires CanRun(AtCrash(s, c, repo, interval), later) && AllLeaveAlone(AtCrash(s, c, repo, interval), later, repo)
    requires After(AtCrash(s, c, repo, interval), later).now > After(s, c.before).now + Patience(interval)
    ensures var end := Step(After(AtCrash(s, c, repo, interval), later), Reap);
            var start, last := After(s, c.before).now, LastFinish(s, c.before, repo);
            && repo in end.db && end.db[repo].nextRun.Some?
            && (end.db[repo].nextRun.value <= start <==> last.None? || last.value + interval * SECOND <= start)
  {
    CrashedSyncIsDueAgain(s, c, later, repo, interval);
    ScheduleIsHistory(s, c.before, repo, interval);
    AppearsByConfigure(s, c.before, repo);
  }

  // ---------------------------------------------------------------- runs that show it

  /** A first sync that succeeds, a pause, and a second one by hand that has just started. */
  function ManualSoonAfter(repo: RepoId, lock1: LockId, lock2: LockId, interval: nat, pause: nat): seq<Event> {
    FirstSync(repo, lock1, interval) + [Tick(pause)] + OpeningSteps(1, repo, lock2)
  }

  function FirstSync(repo: RepoId, lock: LockId, interval: nat): seq<Event> {
    [Configure(repo, interval)] + SyncSteps(0, repo, lock, 0, Success)
  }

  /** The rows when one sync has succeeded at `now`. */
  function SyncedOnce(interval: nat, id: RunId, now: int): Rows
    requires interval > 0
  {
    Rows(interval, Success, Some(now + interval * SECOND), [Run(id, now, Success)])
  }

  lemma {:induction false} RunCons(s: State, e: Event, run: seq<Event>)
    requires Enabled(s, e) && CanRun(Step(s, e), run)
    ensures CanRun(s, [e] + run) && After(s, [e] + run) == After(Step(s, e), run)
  {
    assert ([e] + run)[1..] == run;
  }

  lemma {:induction false} FirstSyncRuns(s: State, repo: RepoId, lock: LockId, interval: nat)
    requires Initial(s) && interval > 0
    ensures CanRun(s, FirstSync(repo, lock, interval))
    ensures var db := map[repo := SyncedOnce(interval, s.nextId, s.now)];
            After(s, FirstSync(repo, lock, interval))
            == State(s.now, db, map[repo := lock], map[], map[], s.nextId + 1)
  {
    var s1 := Step(s, Configure(repo, interval));
    SyncStepsRun(s1, 0, repo, lock, 0, Success);
    RunCons(s, Configure(repo, interval), SyncSteps(0, repo, lock, 0, Success));
    assert SyncedRows(s1.db[repo], s.nextId, Success, s.now, s.now) == SyncedOnce(interval, s.nextId, s.now) by {
      var started := StartRows(s1.db[repo], s.nextId, s.now);
      assert started.runs == [Run(s.nextId, s.now, Running)];
      assert SetStatus(started.runs, s.nextId, Success) == [Run(s.nextId, s.now, Success)];
    }
  }

  /** The state in which the second, manual run has started. */
  function ManualStarted(s: State, repo: RepoId, lock: LockId, interval: nat, pause: nat): State
    requires interval > 0
  {
    State(s.now + pause,
          map[repo := StartRows(SyncedOnce(interval, s.nextId, s.now), s.nextId + 1, s.now + pause)],
          map[repo := lock], map[lock := 1], map[1 := Thread(repo, lock, Syncing(s.nextId + 1))], s.nextId + 2)
  }

  lemma {:induction false} ManualRuns(s: State, repo: RepoId, lock1: LockId, lock2: LockId, interval: nat, pause: nat)
    requires Initial(s) && interval > 0 && pause > 0 && lock1 != lock2
    ensures CanRun(s, ManualSoonAfter(repo, lock1, lock2, interval, pause))
    ensures After(s, ManualSoonAfter(repo, lock1, lock2, interval, pause))
            == ManualStarted(s, repo, lock1, interval, pause)
  {
    var first := FirstSync(repo, lock1, interval);
    FirstSyncRuns(s, repo, lock1, interval);
    RunSnoc(s, first, Tick(pause));
    var s2 := After(s, first + [Tick(pause)]);
    assert lock2 !in s2.locks.Values;
    SyncOpening(s2, 1, repo, lock2);
    RunAppend(s, first + [Tick(pause)], OpeningSteps(1, repo, lock2));
  }

  /** The crash of such a run, a long wait, and one pass of the reaper. */
  function ThenReaped(run: seq<Event>, wait: nat): seq<Event> {
    run + [Crash] + [Tick(wait)] + [Reap]
  }

  lemma {:induction false} ThenReapedRuns(s: State, run: seq<Event>, wait: nat)
    requires CanRun(s, run)
    ensures CanRun(s, ThenReaped(run, wait))
    ensures After(s, ThenReaped(run, wait)) == Step(Step(Step(After(s, run), Crash), Tick(wait)), Reap)
  {
    RunSnoc(s, run, Crash);
    RunSnoc(s, run + [Crash], Tick(wait));
    RunSnoc(s, run + [Crash] + [Tick(wait)], Reap);
  }

  /**
   * The reaper's remark fails: a manual sync within the interval crashes and is reaped, and the next_run_at left
   * standing is later than its start.
   */
  lemma {:induction false} ReapedScheduleWasNotPast(s: State, repo: RepoId, lock1: LockId, lock2: LockId, interval: nat)
    requires Initial(s) && interval > 0 && lock1 != lock2
    ensures var run := ThenReaped(ManualSoonAfter(repo, lock1, lock2, interval, 1), Patience(interval) + 1);
            CanRun(s, run) && repo in After(s, run).db &&
            var r := After(s, run).db[repo];
            && r.lastStatus == Failed && |r.runs| == 2 && r.runs[1] == Run(s.nextId + 1, s.now + 1, Failed)
            && r.nextRun.Some? && r.nextRun.value > r.runs[1].startedAt
  {
    var run := ManualSoonAfter(repo, lock1, lock2, interval, 1);
    ManualRuns(s, repo, lock1, lock2, interval, 1);
    ThenReapedRuns(s, run, Patience(interval) + 1);
    ManualReaped(s, repo, lock1, interval);
  }

  lemma ManualReaped(s: State, repo: RepoId, lock: LockId, interval: nat)
    requires interval > 0
    ensures var started := ManualStarted(s, repo, lock, interval, 1);
            var r := Step(Step(Step(started, Crash), Tick(Patience(interval) + 1)), Reap).db[repo];
            && r.lastStatus == Failed && |r.runs| == 2 && r.runs[1] == Run(s.nextId + 1, s.now + 1, Failed)
            && r.nextRun == Some(s.now + interval * SECOND)
  {
    var r := ManualStarted(s, repo, lock, interval, 1).db[repo];
    assert r.runs == [Run(s.nextId, s.now, Success), Run(s.nextId + 1, s.now + 1, Running)];
    assert IsStuck(r.runs[1], interval, s.now + 1 + (Patience(interval) + 1));
  }

  // ---------------------------------------------------------------- a mirror nobody picks up again

  /** The first sync of a mirror, crashing between the two writes of finishRun. */
  function CrashBetweenWrites(t: Tid, repo: RepoId, lock: LockId, interval: nat, status: Status): seq<Event> {
    ([Configure(repo, interval)] + OpeningSteps(t, repo, lock)) + [WriteRun(t, status)] + [Crash]
  }

  /** The unrecoverable state is reached: from then on neither clock nor reaper make the mirror due again. */
  lemma {:induction false} CrashCanStrand(s: State, t: Tid, repo: RepoId, lock: LockId, interval: nat, status: Status)
    requires Initial(s) && interval > 0 && (status == Success || status == Failed)
    ensures var run := CrashBetweenWrites(t, repo, lock, interval, status);
            CanRun(s, run) &&
            var end := After(s, run);
            && TimeOk(end, repo, interval) && !Findable(end.db[repo])
            && forall later :: SchedulerOnly(later) && CanRun(end, later) ==>
                 repo in After(end, later).db && After(end, later).db[repo] == end.db[repo]
                 && !Due(After(end, later).db[repo], After(end, later).now)
  {
    var s1 := Step(s, Configure(repo, interval));
    var opening := [Configure(repo, interval)] + OpeningSteps(t, repo, lock);
    SyncOpening(s1, t, repo, lock);
    RunCons(s, Configure(repo, interval), OpeningSteps(t, repo, lock));
    RunSnoc(s, opening, WriteRun(t, status));
    RunSnoc(s, opening + [WriteRun(t, status)], Crash);
    var end := After(s, CrashBetweenWrites(t, repo, lock, interval, status));
    assert end.db[repo].runs == [Run(s.nextId, s.now, status)];
    forall later | SchedulerOnly(later) && CanRun(end, later)
      ensures repo in After(end, later).db && After(end, later).db[repo] == end.db[repo]
      ensures !Due(After(end, later).db[repo], After(end, later).now)
    {
      UnfindableStays(end, later, repo);
    }
  }

  // ---------------------------------------------------------------- a reaper that contradicts a later run

  ghost predicate OlderIsStuck(r: Rows, now: int) {
    exists i :: 0 <= i < |r.runs| - 1 && IsStuck(r.runs[i], r.interval, now)
  }

  /**
   * After a pass of the reaper the mirror's status is that of its newest run if and only if that run was itself
   * reaped, or an older one was and the newest had failed anyway, or none was and the two agreed before.
   */
  lemma ReapAgreesIff(r: Rows, now: int)
    requires r.runs != []
    ensures var r', newest := ReapRows(r, now), r.runs[|r.runs| - 1];
            r'.lastStatus == r'.runs[|r.runs| - 1].status
            <==> (if IsStuck(newest, r.interval, now) then true
                  else if OlderIsStuck(r, now) then newest.status == Failed
                  else r.lastStatus == newest.status)
  {
    var last := |r.runs| - 1;
    if OlderIsStuck(r, now) {
      var i :| 0 <= i < last && IsStuck(r.runs[i], r.interval, now);
      assert exists k | 0 <= k < |r.runs| :: IsStuck(r.runs[k], r.interval, now);
    }
    if IsStuck(r.runs[last], r.interval, now) {
      assert exists k | 0 <= k < |r.runs| :: IsStuck(r.runs[k], r.interval, now);
    }
  }

  /** In particular, it overrides a newer successful run exactly if an older run is stuck. */
  lemma ReapOverridesSuccessIff(s: State, repo: RepoId)
    requires repo in s.db && s.db[repo].runs != [] && s.db[repo].lastStatus == Success
    requires s.db[repo].runs[|s.db[repo].runs| - 1].status == Success
    ensures var r, newest := Step(s, Reap).db[repo], |s.db[repo].runs| - 1;
            && r.runs[newest].status == Success
            && (r.lastStatus == Failed <==> OlderIsStuck(s.db[repo], s.now))
            && (r.lastStatus == Success <==> !OlderIsStuck(s.db[repo], s.now))
  {
    ReapAgreesIff(s.db[repo], s.now);
  }

  /** A first sync that crashes, a second one by hand that succeeds, a long wait and a pass of the reaper. */
  function CrashThenSuccess(repo: RepoId, lock1: LockId, lock2: LockId, interval: nat): seq<Event> {
    FirstCrashes(repo, lock1, interval) + SyncSteps(1, repo, lock2, 0, Success) + [Tick(Patience(interval))] + [Reap]
  }

  function FirstCrashes(repo: RepoId, lock: LockId, interval: nat): seq<Event> {
    ([Configure(repo, interval)] + OpeningSteps(0, repo, lock)) + [Crash] + [Tick(1)]
  }

  /** It does happen: the newest run succeeded, and the mirror is shown as failed. */
  lemma {:induction false} ReapCanOverrideSuccess(s: State, repo: RepoId, lock1: LockId, lock2: LockId, interval: nat)
    requires Initial(s)
    ensures var run := CrashThenSuccess(repo, lock1, lock2, interval);
            CanRun(s, run) && repo in After(s, run).db &&
            var r := After(s, run).db[repo];
            r.lastStatus == Failed && |r.runs| == 2 && r.runs[1].status == Success
  {
    var head := FirstCrashes(repo, lock1, interval);
    FirstCrashesRuns(s, repo, lock1, interval);
    var s2 := After(s, head);
    SecondSucceeds(s2, repo, lock2, interval, Run(s.nextId, s.now, Running));
    RunAppend(s, head, SyncSteps(1, repo, lock2, 0, Success));
    var synced := head + SyncSteps(1, repo, lock2, 0, Success);
    RunSnoc(s, synced, Tick(Patience(interval)));
    RunSnoc(s, synced + [Tick(Patience(interval))], Reap);
    OlderIsReaped(After(s, synced).db[repo], s.now + 1 + Patience(interval));
  }

  lemma OlderIsReaped(r: Rows, now: int)
    requires |r.runs| == 2 && IsStuck(r.runs[0], r.interval, now) && r.runs[1].status == Success
    ensures var r' := ReapRows(r, now); r'.lastStatus == Failed && |r'.runs| == 2 && r'.runs[1].status == Success
  {
    assert exists k | 0 <= k < |r.runs| :: IsStuck(r.runs[k], r.interval, now);
  }

  lemma {:induction false} FirstCrashesRuns(s: State, repo: RepoId, lock: LockId, interval: nat)
    requires Initial(s)
    ensures CanRun(s, FirstCrashes(repo, lock, interval))
    ensures var db := map[repo := Rows(interval, Running, Some(s.now), [Run(s.nextId, s.now, Running)])];
            After(s, FirstCrashes(repo, lock, interval))
            == State(s.now + 1, db, map[], map[], map[], s.nextId + 1)
  {
    var s1 := Step(s, Configure(repo, interval));
    var opening := [Configure(repo, interval)] + OpeningSteps(0, repo, lock);
    SyncOpening(s1, 0, repo, lock);
    RunCons(s, Configure(repo, interval), OpeningSteps(0, repo, lock));
    RunSnoc(s, opening, Crash);
    RunSnoc(s, opening + [Crash], Tick(1));
    assert StartRows(s1.db[repo], s.nextId, s.now)
        == Rows(interval, Running, Some(s.now), [Run(s.nextId, s.now, Running)]);
  }

  lemma {:induction false} SecondSucceeds(s: State, repo: RepoId, lock: LockId, interval: nat, older: Run)
    requires s.threads == map[] && s.owner == map[] && s.locks == map[] && repo in s.db
    requires s.db[repo] == Rows(interval, Running, s.db[repo].nextRun, [older])
    requires older.startedAt < s.now && older.id < s.nextId
    ensures var run := SyncSteps(1, repo, lock, 0, Success);
            CanRun(s, run) && repo in After(s, run).db && After(s, run).now == s.now
            && After(s, run).db[repo].runs == [older, Run(s.nextId, s.now, Success)]
            && After(s, run).db[repo].interval == interval
  {
    SyncStepsRun(s, 1, repo, lock, 0, Success);
    var started := StartRows(s.db[repo], s.nextId, s.now);
    assert started.runs == [older, Run(s.nextId, s.now, Running)];
    assert SetStatus(started.runs, s.nextId, Success) == [older, Run(s.nextId, s.now, Success)];
  }
}
