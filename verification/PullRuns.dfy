/**
 * What a whole run of the pull request lifecycle (internal/services/pull/service.go) says about a pull request at its
 * end: how a merged one came to be merged, and where its target branch comes from.
 */
module PullRuns {
  import opened Common
  import opened Git
  import opened Reviews
  import opened Pulls

  /** The state after the first `i` events of a run. */
  ghost function StateAt(s: State, run: seq<Event>, i: nat): State
    requires CanRun(s, run) && i <= |run|
    decreases i
  {
    if i == 0 then s else StateAt(Step(s, run[0]), run[1..], i - 1)
  }

  lemma {:induction false} StateAtEnd(s: State, run: seq<Event>)
    requires CanRun(s, run)
    ensures StateAt(s, run, |run|) == After(s, run)
    decreases |run|
  {
    if run != [] { StateAtEnd(Step(s, run[0]), run[1..]); }
  }

  lemma {:induction false} StateAtNext(s: State, run: seq<Event>, i: nat)
    requires CanRun(s, run) && i < |run|
    ensures Enabled(StateAt(s, run, i), run[i])
    ensures StateAt(s, run, i + 1) == Step(StateAt(s, run, i), run[i])
    decreases i
  {
    if i > 0 {
      StateAtNext(Step(s, run[0]), run[1..], i - 1);
      assert run[1..][i - 1] == run[i];
    }
  }

  lemma {:induction false} StateAtInv(s: State, run: seq<Event>, i: nat)
    requires Inv(s) && CanRun(s, run) && i <= |run|
    ensures Inv(StateAt(s, run, i))
    decreases i
  {
    if i > 0 {
      StepInv(s, run[0]);
      StateAtInv(Step(s, run[0]), run[1..], i - 1);
    }
  }

  // ---------------------------------------------------------------- how a pull request came to be merged

  /** At event `i` the row `p` was locked and checked: it was open, and the rules and reviews of then let it pass. */
  ghost predicate CheckedAt(s: State, run: seq<Event>, i: nat, n: PullId, p: PullRequest, merger: UserId,
                            strategy: string)
    requires CanRun(s, run)
  {
    && i < |run| && run[i].BeginMerge? && run[i].pr == n && run[i].merger == merger && run[i].strategy == strategy
    && var now := StateAt(s, run, i);
       && n in now.prs && now.prs[n] == p && p.status == Open && ValidStrategy(strategy)
       && PassedGate(now, n, p.author, p.target, strategy)
  }

  /** The first rule that matches the branch is satisfied by users who have approved, the author not among them. */
  ghost predicate PassedGate(now: State, n: PullId, author: UserId, branch: string, strategy: string) {
    exists approvers :: AreApprovers(approvers, now.reviews, n, author)
                        && RuleAllows(now.rules, now.matches, branch, approvers, strategy)
  }

  /** Users who have approved pull request `n`, its author not among them. */
  ghost predicate AreApprovers(users: set<UserId>, reviews: seq<Review>, n: PullId, author: UserId) {
    forall user :: user in users ==> user != author && HasApproved(reviews, n, user)
  }

  /** At event `r` the two branches of the row stood at `base` and `head`. */
  ghost predicate ReadAt(s: State, run: seq<Event>, r: nat, n: PullId, p: PullRequest, base: Commit, head: Commit)
    requires CanRun(s, run)
  {
    && r < |run| && run[r].ReadRefs? && run[r].pr == n
    && var now := StateAt(s, run, r);
       Resolve(now.repo, p.target) == Some(base) && Resolve(now.repo, p.source) == Some(head)
  }

  /** Event `j` moved the target branch to `tip`: head's tree, with base in its history. */
  ghost predicate WrittenAt(s: State, run: seq<Event>, j: nat, n: PullId, p: PullRequest, base: Commit, head: Commit,
                            tip: Commit, strategy: string)
    requires CanRun(s, run)
  {
    && j < |run| && run[j] == WriteRefs(n)
    && var after := StateAt(s, run, j + 1);
       && p.target in after.repo.heads && after.repo.heads[p.target] == tip && tip in after.repo.objects
       && tip.tree == head.tree && IsAncestor(base, tip) && (strategy != "merge" ==> LinearOver(base, tip))
  }

  /** Where in a run a merge was checked, read and written, and the commits involved. */
  datatype Story = Story(i: nat, r: nat, j: nat, base: Commit, head: Commit, tip: Commit)

  /** All three happened, in this order. */
  ghost predicate IsStory(s: State, run: seq<Event>, n: PullId, p: PullRequest, merger: UserId, strategy: string,
                          w: Story)
    requires CanRun(s, run)
  {
    && w.i < w.r < w.j
    && CheckedAt(s, run, w.i, n, p, merger, strategy)
    && ReadAt(s, run, w.r, n, p, w.base, w.head)
    && WrittenAt(s, run, w.j, n, p, w.base, w.head, w.tip, strategy)
  }

  ghost predicate WroteBefore(s: State, run: seq<Event>, m: nat, n: PullId, p: PullRequest, merger: UserId,
                              strategy: string)
    requires CanRun(s, run)
  {
    exists w: Story :: w.j < m && IsStory(s, run, n, p, merger, strategy, w)
  }

  ghost predicate ReadBefore(s: State, run: seq<Event>, m: nat, n: PullId, p: PullRequest, merger: UserId,
                             strategy: string, base: Commit, head: Commit)
    requires CanRun(s, run)
  {
    exists i: nat, r: nat ::
      i < r < m && CheckedAt(s, run, i, n, p, merger, strategy) && ReadAt(s, run, r, n, p, base, head)
  }

  ghost predicate CheckedBefore(s: State, run: seq<Event>, m: nat, n: PullId, p: PullRequest, merger: UserId,
                                strategy: string)
    requires CanRun(s, run)
  {
    exists i: nat :: i < m && CheckedAt(s, run, i, n, p, merger, strategy)
  }

  /** An attempt under way is as far as its phase says. */
  ghost predicate Accounted(s: State, run: seq<Event>, m: nat, n: PullId, p: PullRequest, a: Attempt)
    requires CanRun(s, run)
  {
    match a.phase
    case Checked => CheckedBefore(s, run, m, n, p, a.merger, a.strategy)
    case Planned(base, head, _, _, _) => ReadBefore(s, run, m, n, p, a.merger, a.strategy, base, head)
    case Written => WroteBefore(s, run, m, n, p, a.merger, a.strategy)
  }

  /** The open row a merged row was before its merge. */
  ghost predicate WasMergedFrom(q: PullRequest, p: PullRequest, merger: UserId, strategy: string) {
    p.status == Open && q == p.(status := Merged, strategy := strategy, mergedBy := Some(merger))
  }

  /** `q` became merged at event `k`, after its branch had been written. */
  ghost predicate MergedAt(s: State, run: seq<Event>, k: nat, n: PullId, q: PullRequest, p: PullRequest,
                           merger: UserId, strategy: string)
    requires CanRun(s, run)
  {
    k < |run| && run[k] == CommitTx(n) && WasMergedFrom(q, p, merger, strategy)
    && WroteBefore(s, run, k, n, p, merger, strategy)
  }

  ghost predicate MergedBefore(s: State, run: seq<Event>, m: nat, n: PullId, q: PullRequest)
    requires CanRun(s, run)
  {
    exists k: nat, p, merger, strategy :: k < m && MergedAt(s, run, k, n, q, p, merger, strategy)
  }

  ghost predicate AllAccounted(s: State, run: seq<Event>, m: nat)
    requires CanRun(s, run) && m <= |run|
  {
    var now := StateAt(s, run, m);
    && (forall n :: n in now.locked ==> n in now.prs && Accounted(s, run, m, n, now.prs[n], now.locked[n]))
    && (forall n :: n in now.prs && now.prs[n].status == Merged ==> MergedBefore(s, run, m, n, now.prs[n]))
  }

  lemma LaterToo(s: State, run: seq<Event>, m: nat, n: PullId, p: PullRequest, a: Attempt)
    requires CanRun(s, run) && Accounted(s, run, m, n, p, a)
    ensures Accounted(s, run, m + 1, n, p, a)
  {
    match a.phase {
      case Checked =>
        var i: nat :| i < m && CheckedAt(s, run, i, n, p, a.merger, a.strategy);
        assert i < m + 1;
      case Planned(base, head, _, _, _) =>
        var i: nat, r: nat :|
          i < r < m && CheckedAt(s, run, i, n, p, a.merger, a.strategy) && ReadAt(s, run, r, n, p, base, head);
        assert i < r < m + 1;
      case Written =>
        var w: Story :| w.j < m && IsStory(s, run, n, p, a.merger, a.strategy, w);
        assert w.j < m + 1;
    }
  }

  lemma MergedLaterToo(s: State, run: seq<Event>, m: nat, n: PullId, q: PullRequest)
    requires CanRun(s, run) && MergedBefore(s, run, m, n, q)
    ensures MergedBefore(s, run, m + 1, n, q)
  {
    var k: nat, p, merger, strategy :| k < m && MergedAt(s, run, k, n, q, p, merger, strategy);
    assert k < m + 1;
  }

  // The four events that carry an attempt forward, each at position `m`.

  lemma BeginAccounted(s: State, run: seq<Event>, m: nat, n: PullId)
    requires Inv(s) && CanRun(s, run) && m < |run| && run[m].BeginMerge? && run[m].pr == n
    ensures var after := StateAt(s, run, m + 1);
            n in after.locked && n in after.prs && Accounted(s, run, m + 1, n, after.prs[n], after.locked[n])
  {
    StateAtNext(s, run, m);
    StateAtInv(s, run, m);
    var now := StateAt(s, run, m);
    NoSelfApproval(now, n);
    var approvers, p := Approvers(now.reviews, n), now.prs[n];
    GateIsFirstMatch(now.rules, now.matches, p.target, approvers, run[m].strategy);
    forall user | user in approvers ensures user != p.author && HasApproved(now.reviews, n, user) {
      ApproversAre(now.reviews, n, user);
    }
    assert AreApprovers(approvers, now.reviews, n, p.author);
    assert CheckedAt(s, run, m, n, now.prs[n], run[m].merger, run[m].strategy);
  }

  lemma ReadAccounted(s: State, run: seq<Event>, m: nat, n: PullId)
    requires CanRun(s, run) && m < |run| && run[m].ReadRefs? && run[m].pr == n && AllAccounted(s, run, m)
    ensures var after := StateAt(s, run, m + 1);
            n in after.locked ==> n in after.prs && Accounted(s, run, m + 1, n, after.prs[n], after.locked[n])
  {
    StateAtNext(s, run, m);
    var now, after := StateAt(s, run, m), StateAt(s, run, m + 1);
    var a, p := now.locked[n], now.prs[n];
    assert Accounted(s, run, m, n, p, a);
    if n in after.locked {
      var i: nat :| i < m && CheckedAt(s, run, i, n, p, a.merger, a.strategy);
      var base, head := after.locked[n].phase.base, after.locked[n].phase.head;
      assert ReadAt(s, run, m, n, p, base, head);
      assert i < m < m + 1;
      assert ReadBefore(s, run, m + 1, n, p, a.merger, a.strategy, base, head);
    }
  }

  /** The write moves the branch, by the laws of the three strategies. */
  lemma WriteMoves(s: State, run: seq<Event>, m: nat, n: PullId)
    requires Inv(s) && CanRun(s, run) && m < |run| && run[m] == WriteRefs(n)
    ensures var now, after := StateAt(s, run, m), StateAt(s, run, m + 1);
            && Enabled(now, WriteRefs(n)) && n in after.prs && after.prs[n] == now.prs[n]
            && n in after.locked && after.locked[n] == now.locked[n].(phase := Written)
            && var a, p := now.locked[n], now.prs[n];
               p.target in after.repo.heads
               && WrittenAt(s, run, m, n, p, a.phase.base, a.phase.head, after.repo.heads[p.target], a.strategy)
  {
    StateAtNext(s, run, m);
    StateAtInv(s, run, m);
    CreatedFacts(StateAt(s, run, m), n);
  }

  lemma WriteAccounted(s: State, run: seq<Event>, m: nat, n: PullId)
    requires Inv(s) && CanRun(s, run) && m < |run| && run[m] == WriteRefs(n) && AllAccounted(s, run, m)
    ensures var after := StateAt(s, run, m + 1);
            n in after.locked && n in after.prs && Accounted(s, run, m + 1, n, after.prs[n], after.locked[n])
  {
    WriteMoves(s, run, m, n);
    var now, after := StateAt(s, run, m), StateAt(s, run, m + 1);
    var a, p := now.locked[n], now.prs[n];
    assert Accounted(s, run, m, n, p, a);
    var base, head := a.phase.base, a.phase.head;
    var i: nat, r: nat :|
      i < r < m && CheckedAt(s, run, i, n, p, a.merger, a.strategy) && ReadAt(s, run, r, n, p, base, head);
    assert IsStory(s, run, n, p, a.merger, a.strategy, Story(i, r, m, base, head, after.repo.heads[p.target]));
  }

  lemma CommitAccounted(s: State, run: seq<Event>, m: nat, n: PullId)
    requires Inv(s) && CanRun(s, run) && m < |run| && run[m] == CommitTx(n) && AllAccounted(s, run, m)
    ensures var after := StateAt(s, run, m + 1);
            n in after.prs && MergedBefore(s, run, m + 1, n, after.prs[n]) && n !in after.locked
  {
    StateAtNext(s, run, m);
    StateAtInv(s, run, m);
    var now, after := StateAt(s, run, m), StateAt(s, run, m + 1);
    var a, p := now.locked[n], now.prs[n];
    assert AttemptOk(now, n);
    assert Accounted(s, run, m, n, p, a);
    assert MergedAt(s, run, m, n, after.prs[n], p, a.merger, a.strategy);
  }

  /** Attempts and merged rows an event does not name stay as they are. */
  lemma Untouched(s: State, e: Event, n: PullId)
    requires Inv(s) && Enabled(s, e)
    ensures n in Step(s, e).locked && !(e.BeginMerge? && e.pr == n) && !(e.ReadRefs? && e.pr == n)
              && e != WriteRefs(n) ==>
              n in s.locked && n in s.prs && n in Step(s, e).prs
              && Step(s, e).locked[n] == s.locked[n] && Step(s, e).prs[n] == s.prs[n]
    ensures n in Step(s, e).prs && Step(s, e).prs[n].status == Merged && e != CommitTx(n) ==>
              n in s.prs && Step(s, e).prs[n] == s.prs[n]
  {
    assert n in s.locked ==> AttemptOk(s, n);
  }

  lemma StepAccounted(s: State, run: seq<Event>, m: nat)
    requires Inv(s) && CanRun(s, run) && m < |run| && AllAccounted(s, run, m)
    ensures AllAccounted(s, run, m + 1)
  {
    StateAtNext(s, run, m);
    StateAtInv(s, run, m);
    var now, after, e := StateAt(s, run, m), StateAt(s, run, m + 1), run[m];
    forall n | n in after.locked
      ensures n in after.prs && Accounted(s, run, m + 1, n, after.prs[n], after.locked[n])
    {
      if e.BeginMerge? && e.pr == n {
        BeginAccounted(s, run, m, n);
      } else if e.ReadRefs? && e.pr == n {
        ReadAccounted(s, run, m, n);
      } else if e == WriteRefs(n) {
        WriteAccounted(s, run, m, n);
      } else {
        Untouched(now, e, n);
        LaterToo(s, run, m, n, now.prs[n], now.locked[n]);
      }
    }
    forall n | n in after.prs && after.prs[n].status == Merged ensures MergedBefore(s, run, m + 1, n, after.prs[n]) {
      if e == CommitTx(n) {
        CommitAccounted(s, run, m, n);
      } else {
        Untouched(now, e, n);
        MergedLaterToo(s, run, m, n, now.prs[n]);
      }
    }
  }

  lemma {:induction false} RunAccounted(s: State, run: seq<Event>, m: nat)
    requires Initial(s) && CanRun(s, run) && m <= |run|
    ensures AllAccounted(s, run, m)
    decreases m
  {
    InitialInv(s);
    if m > 0 {
      RunAccounted(s, run, m - 1);
      StepAccounted(s, run, m - 1);
    }
  }

  /**
   * Behind every merged pull request of every run: at some event i it was checked, open, against the rule that then
   * matched its target, with the required number of distinct approvers at that moment, its author not among them, and
   * a strategy the rule allows; at a later event r its branches were read; at a later event j its target branch was
   * moved to a commit with the tree its source had at r and the tip its target had at r in its history; and at a later
   * event k it was recorded as merged, by that strategy and that user, and has not changed since.
   */
  lemma MergedWasWrittenAndReviewed(s: State, run: seq<Event>, n: PullId)
    requires Initial(s) && CanRun(s, run)
    requires n in After(s, run).prs && After(s, run).prs[n].status == Merged
    ensures exists w: Story, k: nat :: IsMergeStory(s, run, n, After(s, run).prs[n], w, k)
  {
    RunAccounted(s, run, |run|);
    StateAtEnd(s, run);
    var q := After(s, run).prs[n];
    var k: nat, p, merger, strategy :| k < |run| && MergedAt(s, run, k, n, q, p, merger, strategy);
    var w: Story :| w.j < k && IsStory(s, run, n, p, merger, strategy, w);
    assert IsMergeStory(s, run, n, q, w, k);
  }

  /** The story of one merge, told with the states the run passed through. */
  ghost predicate IsMergeStory(s: State, run: seq<Event>, n: PullId, q: PullRequest, w: Story, k: nat)
    requires CanRun(s, run)
  {
    && w.i < w.r < w.j < k < |run|
    && run[w.i].BeginMerge? && run[w.i].pr == n && q.mergedBy == Some(run[w.i].merger)
    && q.strategy == run[w.i].strategy
    && run[w.r].ReadRefs? && run[w.r].pr == n && run[w.j] == WriteRefs(n) && run[k] == CommitTx(n)
    && (var checked := StateAt(s, run, w.i);
        && n in checked.prs && checked.prs[n].status == Open
        && PassedGate(checked, n, q.author, q.target, q.strategy))
    && (var read := StateAt(s, run, w.r);
        Resolve(read.repo, q.target) == Some(w.base) && Resolve(read.repo, q.source) == Some(w.head))
    && (var written := StateAt(s, run, w.j + 1);
        && q.target in written.repo.heads && written.repo.heads[q.target] == w.tip && w.tip in written.repo.objects
        && w.tip.tree == w.head.tree && IsAncestor(w.base, w.tip)
        && (q.strategy != "merge" ==> LinearOver(w.base, w.tip)))
  }

  // ---------------------------------------------------------------- where the target comes from

  /** The target the last retargeting of `n` in the run names, if there is one. */
  function LastTarget(run: seq<Event>, n: PullId): Option<string> {
    if run == [] then None
    else
      var later := LastTarget(run[1..], n);
      if later.Some? then later
      else if run[0].Update? && run[0].pr == n then run[0].newTarget
      else None
  }

  /** A pull request keeps its source, and its target is the one last asked for. */
  lemma {:induction false} TargetIsLastAsked(s: State, run: seq<Event>, n: PullId)
    requires CanRun(s, run) && n in s.prs
    ensures n in After(s, run).prs && After(s, run).prs[n].source == s.prs[n].source
    ensures After(s, run).prs[n].target == match LastTarget(run, n) case None => s.prs[n].target case Some(t) => t
    decreases |run|
  {
    if run != [] { TargetIsLastAsked(Step(s, run[0]), run[1..], n); }
  }

  lemma {:induction false} CreatedApart(s: State, run: seq<Event>, n: PullId)
    requires CanRun(s, run) && n !in s.prs && n in After(s, run).prs
    ensures After(s, run).prs[n].target == After(s, run).prs[n].source
            <==> LastTarget(run, n) == Some(After(s, run).prs[n].source)
    decreases |run|
  {
    var s1 := Step(s, run[0]);
    if n in s1.prs {
      assert s1.prs[n].source != s1.prs[n].target;
      TargetIsLastAsked(s1, run[1..], n);
    } else {
      CreatedApart(s1, run[1..], n);
    }
  }

  /**
   * Create refuses a pull request of a branch into itself, Update does not: at the end of any run a pull request's
   * target is its own source if and only if the last update that gave it a target named its source.
   */
  lemma TargetIsSourceIff(s: State, run: seq<Event>, n: PullId)
    requires Initial(s) && CanRun(s, run) && n in After(s, run).prs
    ensures After(s, run).prs[n].target == After(s, run).prs[n].source
            <==> LastTarget(run, n) == Some(After(s, run).prs[n].source)
  {
    CreatedApart(s, run, n);
  }

  /** No update of `n` asks for `branch` as its target. */
  predicate NeverAsks(run: seq<Event>, n: PullId, branch: string) {
    forall i :: 0 <= i < |run| && run[i].Update? && run[i].pr == n ==> run[i].newTarget != Some(branch)
  }

  lemma {:induction false} LastWasAsked(run: seq<Event>, n: PullId, branch: string)
    requires LastTarget(run, n) == Some(branch)
    ensures !NeverAsks(run, n, branch)
  {
    if LastTarget(run[1..], n).Some? {
      LastWasAsked(run[1..], n, branch);
      var i :| 0 <= i < |run| - 1 && run[1..][i].Update? && run[1..][i].pr == n
          && run[1..][i].newTarget == Some(branch);
      assert run[i + 1] == run[1..][i];
    } else {
      assert run[0].newTarget == Some(branch);
    }
  }

  /** If nobody ever retargets a pull request at its own source, its branches stay apart. */
  lemma BranchesStayApart(s: State, run: seq<Event>, n: PullId)
    requires Initial(s) && CanRun(s, run) && n in After(s, run).prs
    requires NeverAsks(run, n, After(s, run).prs[n].source)
    ensures After(s, run).prs[n].target != After(s, run).prs[n].source
  {
    TargetIsSourceIff(s, run, n);
    if LastTarget(run, n) == Some(After(s, run).prs[n].source) { LastWasAsked(run, n, After(s, run).prs[n].source); }
  }

  /** It does happen: one pull request, opened properly and then retargeted at its own source. */
  lemma TargetBecomesSource(s: State, n: PullId, author: UserId)
    requires Initial(s) && "dev" in s.repo.heads && "main" in s.repo.heads
    ensures var run := [] + [Create(n, author, "dev", "main", false)] + [Update(n, Some("dev"), None)];
            CanRun(s, run) && n in After(s, run).prs && After(s, run).prs[n].target == After(s, run).prs[n].source
  {
    var e := Create(n, author, "dev", "main", false);
    RunSnoc(s, [], e);
    RunSnoc(s, [] + [e], Update(n, Some("dev"), None));
  }
}
