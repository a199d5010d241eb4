/**
 * The pull request lifecycle (internal/services/pull/service.go) with reviews, branch protection
 * (internal/services/protection/service.go) and the git merge it drives.
 *
 * Merge runs in a transaction that holds the pull request's row. Its steps are: lock the row and check
 * it, read the two branches, write the commits and move the branch, commit the row. Between them other
 * requests run, among them merges of other pull requests into the same branch. The transaction may also
 * be lost after the branch has moved.
 */
module Pulls {
  import opened Common
  import Text
  import opened Git
  import opened Reviews

  datatype Status = Draft | Open | Merged | Closed

  datatype PullRequest = PullRequest(author: UserId, source: string, target: string, status: Status,
                                     strategy: string, mergedBy: Option<UserId>)

  datatype Rule = Rule(pattern: string, requiredReviews: nat, requireLinear: bool)

  datatype Phase =
    | Checked
    | Planned(base: Commit, head: Commit, bases: seq<Commit>, log: seq<Commit>, store: set<Commit>)
    | Written

  /** A merge in progress, holding its pull request's row. `store` is history: the objects when it read. */
  datatype Attempt = Attempt(merger: UserId, strategy: string, message: string, sig: Signature, phase: Phase)

  /** `matches` is filepath.Match(pattern, branch). */
  datatype State = State(prs: map<PullId, PullRequest>, reviews: seq<Review>, rules: seq<Rule>, repo: Repo,
                         locked: map<PullId, Attempt>, matches: (string, string) -> bool)

  datatype Event =
    | Create(pr: PullId, author: UserId, source: string, target: string, draft: bool)
    | Update(pr: PullId, newTarget: Option<string>, newStatus: Option<Status>)
    | Submit(review: Review)
    | SetRules(rules: seq<Rule>)
    | BeginMerge(pr: PullId, merger: UserId, strategy: string, message: string, sig: Signature)
    | ReadRefs(pr: PullId, bases: seq<Commit>, log: seq<Commit>)
    | WriteRefs(pr: PullId)
    | CommitTx(pr: PullId)
    | LoseTx(pr: PullId)
    | Push(branch: string, tip: Commit, objects: set<Commit>)
    | DeleteBranch(branch: string)

  /** protection.Check: the first rule, in pattern order, that matches the branch. */
  function Check(rules: seq<Rule>, matches: (string, string) -> bool, branch: string): Option<Rule> {
    if rules == [] then None
    else if matches(rules[0].pattern, branch) then Some(rules[0])
    else Check(rules[1..], matches, branch)
  }

  /** Rule `i` is the first of the rules whose pattern matches the branch. */
  predicate IsFirstMatch(rules: seq<Rule>, matches: (string, string) -> bool, branch: string, i: nat) {
    i < |rules| && matches(rules[i].pattern, branch) && forall k :: 0 <= k < i ==> !matches(rules[k].pattern, branch)
  }

  /** Check answers with the first matching rule, and with none exactly if no rule matches. */
  lemma {:induction false} CheckIsFirstMatch(rules: seq<Rule>, matches: (string, string) -> bool, branch: string)
    ensures var rule := Check(rules, matches, branch);
            && (rule.None? <==> forall i :: 0 <= i < |rules| ==> !matches(rules[i].pattern, branch))
            && (rule.Some? ==> exists i: nat :: IsFirstMatch(rules, matches, branch, i) && rule.value == rules[i])
            && (forall i: nat :: IsFirstMatch(rules, matches, branch, i) ==> rule == Some(rules[i]))
    decreases |rules|
  {
    if rules != [] && !matches(rules[0].pattern, branch) {
      var rest := rules[1..];
      CheckIsFirstMatch(rest, matches, branch);
      assert forall k :: 0 < k < |rules| ==> rules[k] == rest[k - 1];
      forall i: nat | IsFirstMatch(rules, matches, branch, i) ensures Check(rest, matches, branch) == Some(rules[i]) {
        assert IsFirstMatch(rest, matches, branch, i - 1);
      }
      if Check(rest, matches, branch).Some? {
        var i: nat :| IsFirstMatch(rest, matches, branch, i) && Check(rest, matches, branch).value == rest[i];
        assert IsFirstMatch(rules, matches, branch, i + 1);
      }
    } else if rules != [] {
      assert IsFirstMatch(rules, matches, branch, 0);
    }
  }

  /** The first rule that matches the branch, if any, lets a merge with these approvers pass. */
  ghost predicate RuleAllows(rules: seq<Rule>, matches: (string, string) -> bool, branch: string,
                             approvers: set<UserId>, strategy: string)
  {
    forall i: nat :: IsFirstMatch(rules, matches, branch, i) ==>
      rules[i].requiredReviews <= |approvers| && !(rules[i].requireLinear && strategy == "merge")
  }

  lemma GateIsFirstMatch(rules: seq<Rule>, matches: (string, string) -> bool, branch: string,
                         approvers: set<UserId>, strategy: string)
    ensures GatePasses(Check(rules, matches, branch), |approvers|, strategy)
       <==> RuleAllows(rules, matches, branch, approvers, strategy)
  {
    CheckIsFirstMatch(rules, matches, branch);
  }

  function RequiredBy(rule: Option<Rule>): nat {
    if rule.Some? then rule.value.requiredReviews else 0
  }

  predicate GatePasses(rule: Option<Rule>, approvals: nat, strategy: string) {
    && RequiredBy(rule) <= approvals
    && !(rule.Some? && rule.value.requireLinear && strategy == "merge")
  }

  predicate ValidStrategy(strategy: string) {
    strategy == "merge" || strategy == "squash" || strategy == "rebase"
  }

  function PlanOf(a: Attempt): Result<seq<Commit>, MergeError>
    requires a.phase.Planned?
  {
    Plan(a.phase.base, a.phase.head, a.strategy, a.message, a.sig, a.phase.bases, a.phase.log)
  }

  ghost predicate Enabled(s: State, e: Event) {
    match e
    case Create(n, _, source, target, _) =>
      n !in s.prs && source != target && Resolve(s.repo, source).Some? && Resolve(s.repo, target).Some?
    case Update(n, _, newStatus) =>
      n in s.prs && n !in s.locked && s.prs[n].status != Merged && newStatus != Some(Merged)
    case Submit(r) => r.pr in s.prs && s.prs[r.pr].author != r.author
    case SetRules(_) => true
    case BeginMerge(n, _, strategy, _, _) =>
      && n in s.prs && n !in s.locked && s.prs[n].status == Open && ValidStrategy(strategy)
      && GatePasses(Check(s.rules, s.matches, s.prs[n].target), |Approvers(s.reviews, n)|, strategy)
    case ReadRefs(n, bases, log) =>
      && n in s.prs && n in s.locked && s.locked[n].phase.Checked?
      && Reported(s.repo, s.prs[n].target, s.prs[n].source, bases, log)
    case WriteRefs(n) => n in s.prs && n in s.locked && s.locked[n].phase.Planned?
    case CommitTx(n) => n in s.prs && n in s.locked && s.locked[n].phase.Written?
    case LoseTx(n) => n in s.locked
    case Push(_, tip, objects) =>
      s.repo.objects <= objects && tip in objects && forall c, p :: c in objects && p in c.parents ==> p in objects
    case DeleteBranch(b) => b in s.repo.heads
  }

  function BeginStep(s: State, n: PullId, merger: UserId, strategy: string, message: string, sig: Signature): State
    requires n in s.prs
  {
    s.(locked := s.locked[n := Attempt(merger, strategy, message, sig, Checked)])
  }

  /** Resolve both branches and compute the merge; an error rolls the transaction back. */
  function ReadStep(s: State, n: PullId, bases: seq<Commit>, log: seq<Commit>): State
    requires n in s.prs && n in s.locked
  {
    var b, h := Resolve(s.repo, s.prs[n].target), Resolve(s.repo, s.prs[n].source);
    if b.None? || h.None? then s.(locked := s.locked - {n})
    else
      var a := s.locked[n].(phase := Planned(b.value, h.value, bases, log, s.repo.objects));
      if PlanOf(a).Err? then s.(locked := s.locked - {n}) else s.(locked := s.locked[n := a])
  }

  function WriteStep(s: State, n: PullId): State
    requires n in s.prs && n in s.locked && s.locked[n].phase.Planned?
  {
    var a := s.locked[n];
    var created := if PlanOf(a).Ok? then PlanOf(a).value else [];
    if created == [] then s.(locked := s.locked - {n})
    else s.(repo := Advance(s.repo, s.prs[n].target, created), locked := s.locked[n := a.(phase := Written)])
  }

  function CommitStep(s: State, n: PullId): State
    requires n in s.prs && n in s.locked
  {
    var a := s.locked[n];
    s.(prs := s.prs[n := s.prs[n].(status := Merged, strategy := a.strategy, mergedBy := Some(a.merger))],
       locked := s.locked - {n})
  }

  function UpdateStep(s: State, n: PullId, newTarget: Option<string>, newStatus: Option<Status>): State
    requires n in s.prs
  {
    var p := s.prs[n];
    var p1 := if newTarget.Some? then p.(target := newTarget.value) else p;
    var p2 := if newStatus.Some? then p1.(status := newStatus.value) else p1;
    s.(prs := s.prs[n := p2])
  }

  function Step(s: State, e: Event): State
    requires Enabled(s, e)
  {
    match e
    case Create(n, author, source, target, draft) =>
      s.(prs := s.prs[n := PullRequest(author, source, target, if draft then Draft else Open, "", None)])
    case Update(n, newTarget, newStatus) => UpdateStep(s, n, newTarget, newStatus)
    case Submit(r) => s.(reviews := s.reviews + [r])
    case SetRules(rules) => s.(rules := rules)
    case BeginMerge(n, merger, strategy, message, sig) => BeginStep(s, n, merger, strategy, message, sig)
    case ReadRefs(n, bases, log) => ReadStep(s, n, bases, log)
    case WriteRefs(n) => WriteStep(s, n)
    case CommitTx(n) => CommitStep(s, n)
    case LoseTx(n) => s.(locked := s.locked - {n})
    case Push(b, tip, objects) => s.(repo := s.repo.(objects := objects, heads := s.repo.heads[b := tip]))
    case DeleteBranch(b) => s.(repo := s.repo.(heads := s.repo.heads - {b}))
  }

  ghost predicate CanRun(s: State, run: seq<Event>)
    decreases |run|
  {
    run == [] || (Enabled(s, run[0]) && CanRun(Step(s, run[0]), run[1..]))
  }

  ghost function After(s: State, run: seq<Event>): State
    requires CanRun(s, run)
    decreases |run|
  {
    if run == [] then s else After(Step(s, run[0]), run[1..])
  }

  // ---------------------------------------------------------------- invariant

  ghost predicate Initial(s: State) {
    s.prs == map[] && s.reviews == [] && s.locked == map[] && RepoOk(s.repo)
  }

  ghost predicate ReviewsOk(s: State) {
    forall i :: 0 <= i < |s.reviews| ==>
      s.reviews[i].pr in s.prs && s.prs[s.reviews[i].pr].author != s.reviews[i].author
  }

  ghost predicate PhaseOk(s: State, n: PullId, a: Attempt)
    requires n in s.prs
  {
    match a.phase
    case Checked => true
    case Planned(base, head, bases, log, store) =>
      && base in store && head in store && store <= s.repo.objects
      && (forall c, p :: c in store && p in c.parents ==> p in store)
      && IsMergeBases(bases, base, head) && IsLog(log, head)
      && PlanOf(a).Ok?
    case Written => true
  }

  ghost predicate AttemptOk(s: State, n: PullId)
    requires n in s.locked
  {
    && n in s.prs && s.prs[n].status == Open && ValidStrategy(s.locked[n].strategy)
    && PhaseOk(s, n, s.locked[n])
  }

  ghost predicate Inv(s: State) {
    && RepoOk(s.repo)
    && ReviewsOk(s)
    && (forall n :: n in s.locked ==> AttemptOk(s, n))
  }

  /** Attempts whose row and branches a step leaves alone. */
  lemma OtherAttempts(s: State, s': State, n: PullId)
    requires Inv(s) && s'.repo.objects >= s.repo.objects
    requires forall k :: k in s.prs && k != n ==> k in s'.prs && s'.prs[k] == s.prs[k]
    ensures forall k :: k in s.locked && k != n && k in s'.locked && s'.locked[k] == s.locked[k] ==> AttemptOk(s', k)
  {
    forall k | k in s.locked && k != n && k in s'.locked && s'.locked[k] == s.locked[k] ensures AttemptOk(s', k) {
      assert AttemptOk(s, k);
    }
  }

  lemma RowStepInv(s: State, e: Event)
    requires Inv(s) && Enabled(s, e) && (e.Create? || e.Update? || e.CommitTx?)
    ensures Inv(Step(s, e))
  {
    forall n | n in Step(s, e).locked ensures AttemptOk(Step(s, e), n) { assert AttemptOk(s, n); }
  }

  lemma SubmitInv(s: State, r: Review)
    requires Inv(s) && Enabled(s, Submit(r))
    ensures Inv(Step(s, Submit(r)))
  {
    forall n | n in s.locked ensures AttemptOk(Step(s, Submit(r)), n) { assert AttemptOk(s, n); }
  }

  /** A step that changes only the lock of one row: the rest of the invariant does not depend on it. */
  lemma RelockInv(s: State, s': State, n: PullId)
    requires Inv(s) && s' == s.(locked := s'.locked)
    requires forall k :: k in s'.locked && k != n ==> k in s.locked && s'.locked[k] == s.locked[k]
    requires n in s'.locked ==> AttemptOk(s', n)
    ensures Inv(s')
  {
    forall k | k in s'.locked && k != n ensures AttemptOk(s', k) { assert AttemptOk(s, k); }
  }

  lemma RulesInv(s: State, rules: seq<Rule>)
    requires Inv(s)
    ensures Inv(s.(rules := rules))
  {
    forall k | k in s.locked ensures AttemptOk(s.(rules := rules), k) { assert AttemptOk(s, k); }
  }

  lemma ReadAttempt(s: State, n: PullId, bases: seq<Commit>, log: seq<Commit>)
    requires RepoOk(s.repo) && Enabled(s, ReadRefs(n, bases, log)) && AttemptOk(s, n)
    requires n in ReadStep(s, n, bases, log).locked
    ensures AttemptOk(ReadStep(s, n, bases, log), n)
  {
    assert Resolve(s.repo, s.prs[n].target).value in s.repo.objects;
    assert Resolve(s.repo, s.prs[n].source).value in s.repo.objects;
  }

  lemma ReadInv(s: State, n: PullId, bases: seq<Commit>, log: seq<Commit>)
    requires Inv(s) && Enabled(s, ReadRefs(n, bases, log))
    ensures Inv(Step(s, ReadRefs(n, bases, log)))
  {
    assert AttemptOk(s, n);
    if n in ReadStep(s, n, bases, log).locked { ReadAttempt(s, n, bases, log); }
    RelockInv(s, ReadStep(s, n, bases, log), n);
  }

  lemma RefStepInv(s: State, e: Event)
    requires Inv(s) && Enabled(s, e) && (e.Push? || e.DeleteBranch?)
    ensures Inv(Step(s, e))
  {
    forall n | n in s.locked ensures AttemptOk(Step(s, e), n) { assert AttemptOk(s, n); }
  }

  /** What WriteRefs creates: a non-empty list ending in the new tip, sound as for any merge. */
  lemma CreatedFacts(s: State, n: PullId)
    requires Inv(s) && Enabled(s, WriteRefs(n))
    ensures var a := s.locked[n];
            && PlanOf(a).Ok? && PlanOf(a).value != []
            && Last(PlanOf(a).value).tree == a.phase.head.tree
            && IsAncestor(a.phase.base, Last(PlanOf(a).value))
            && (a.strategy != "merge" ==> LinearOver(a.phase.base, Last(PlanOf(a).value)))
            && RepoOk(Advance(s.repo, s.prs[n].target, PlanOf(a).value))
  {
    assert AttemptOk(s, n);
    var a := s.locked[n];
    PlanSound(a.phase.base, a.phase.head, a.strategy, a.message, a.sig, a.phase.bases, a.phase.log);
    AdvanceOk(s.repo, s.prs[n].target, a.phase.base, a.phase.head, a.strategy, a.message, a.sig,
              a.phase.bases, a.phase.log);
  }

  lemma WriteInv(s: State, n: PullId)
    requires Inv(s) && Enabled(s, WriteRefs(n))
    ensures Inv(Step(s, WriteRefs(n)))
  {
    CreatedFacts(s, n);
    assert AttemptOk(s, n);
    OtherAttempts(s, WriteStep(s, n), n);
    assert AttemptOk(WriteStep(s, n), n);
  }

  lemma StepInv(s: State, e: Event)
    requires Inv(s) && Enabled(s, e)
    ensures Inv(Step(s, e))
  {
    match e
    case Create(_, _, _, _, _) => RowStepInv(s, e);
    case Update(_, _, _) => RowStepInv(s, e);
    case CommitTx(_) => RowStepInv(s, e);
    case Submit(r) => SubmitInv(s, r);
    case WriteRefs(n) => WriteInv(s, n);
    case Push(_, _, _) => RefStepInv(s, e);
    case DeleteBranch(_) => RefStepInv(s, e);
    case SetRules(rules) => RulesInv(s, rules);
    case LoseTx(n) => RelockInv(s, Step(s, e), n);
    case BeginMerge(n, _, _, _, _) => RelockInv(s, Step(s, e), n);
    case ReadRefs(n, bases, log) => ReadInv(s, n, bases, log);
  }

  lemma {:induction false} RunInv(s: State, run: seq<Event>)
    requires Inv(s) && CanRun(s, run)
    ensures Inv(After(s, run))
    decreases |run|
  {
    if run != [] {
      StepInv(s, run[0]);
      RunInv(Step(s, run[0]), run[1..]);
    }
  }

  // ---------------------------------------------------------------- merged is final, and means merged

  /** A merged pull request never changes again, whatever anyone does. */
  lemma {:induction false} MergedIsFinal(s: State, run: seq<Event>, n: PullId)
    requires Inv(s) && CanRun(s, run) && n in s.prs && s.prs[n].status == Merged
    ensures n in After(s, run).prs && After(s, run).prs[n] == s.prs[n]
    decreases |run|
  {
    if run != [] {
      StepInv(s, run[0]);
      assert n in s.locked ==> AttemptOk(s, n);
      MergedIsFinal(Step(s, run[0]), run[1..], n);
    }
  }

  function Commits(run: seq<Event>, n: PullId): nat {
    if run == [] then 0 else (if run[0] == CommitTx(n) then 1 else 0) + Commits(run[1..], n)
  }

  /** The merged state is entered at most once per pull request, in every run. */
  lemma {:induction false} MergedOnce(s: State, run: seq<Event>, n: PullId)
    requires Inv(s) && CanRun(s, run)
    ensures Commits(run, n) <= 1
    ensures n in s.prs && s.prs[n].status == Merged ==> Commits(run, n) == 0
    decreases |run|
  {
    if run != [] {
      StepInv(s, run[0]);
      assert n in s.locked ==> AttemptOk(s, n);
      MergedOnce(Step(s, run[0]), run[1..], n);
      if n in s.prs && s.prs[n].status == Merged { MergedIsFinal(s, [run[0]], n); }
    }
  }

  lemma InitialInv(s: State)
    requires Initial(s)
    ensures Inv(s)
  {
  }

  lemma NoSelfApproval(s: State, n: PullId)
    requires Inv(s) && n in s.prs
    ensures s.prs[n].author !in Approvers(s.reviews, n)
  {
    forall r | r in s.reviews && r.pr == n ensures r.author != s.prs[n].author {
      var i :| 0 <= i < |s.reviews| && s.reviews[i] == r;
    }
  }

  // ---------------------------------------------------------------- linear history

  /** The first rule that matches the branch requires linear history. */
  ghost predicate RequiresLinear(rules: seq<Rule>, matches: (string, string) -> bool, branch: string) {
    exists i: nat :: IsFirstMatch(rules, matches, branch, i) && rules[i].requireLinear
  }

  /** Nobody pushes to or deletes the branch, and its matching rule goes on requiring linear history. */
  ghost predicate LeavesToMerges(e: Event, matches: (string, string) -> bool, branch: string) {
    match e
    case Push(b, _, _) => b != branch
    case DeleteBranch(b) => b != branch
    case SetRules(rules) => RequiresLinear(rules, matches, branch)
    case _ => true
  }

  ghost predicate LinearInv(s: State, branch: string, start: Commit) {
    && RequiresLinear(s.rules, s.matches, branch)
    && branch in s.repo.heads && LinearOver(start, s.repo.heads[branch])
    && forall n :: n in s.locked && n in s.prs && s.prs[n].target == branch ==>
         && s.locked[n].strategy != "merge"
         && (s.locked[n].phase.Planned? ==> LinearOver(start, s.locked[n].phase.base))
  }

  lemma LinearGate(rules: seq<Rule>, matches: (string, string) -> bool, branch: string, approvals: nat,
                   strategy: string)
    requires RequiresLinear(rules, matches, branch) && GatePasses(Check(rules, matches, branch), approvals, strategy)
    ensures strategy != "merge"
  {
    CheckIsFirstMatch(rules, matches, branch);
  }

  lemma LinearStep(s: State, e: Event, branch: string, start: Commit)
    requires Inv(s) && Enabled(s, e) && LinearInv(s, branch, start) && LeavesToMerges(e, s.matches, branch)
    ensures LinearInv(Step(s, e), branch, start)
  {
    if e.BeginMerge? && s.prs[e.pr].target == branch {
      LinearGate(s.rules, s.matches, branch, |Approvers(s.reviews, e.pr)|, e.strategy);
    }
    if e.WriteRefs? { LinearWrite(s, e.pr, branch, start); }
    forall n | n in s.locked ensures AttemptOk(s, n) {}
  }

  lemma LinearWrite(s: State, n: PullId, branch: string, start: Commit)
    requires Inv(s) && Enabled(s, WriteRefs(n)) && LinearInv(s, branch, start)
    ensures var heads := Step(s, WriteRefs(n)).repo.heads; branch in heads && LinearOver(start, heads[branch])
  {
    CreatedFacts(s, n);
    if s.prs[n].target == branch {
      LinearTrans(start, s.locked[n].phase.base, Last(PlanOf(s.locked[n]).value));
    }
  }

  /**
   * While a branch's matching rule requires linear history and only pull requests move the branch, every
   * run of merges adds only single-parent commits to it, even when merges overlap.
   */
  lemma {:induction false} LinearHistory(s: State, run: seq<Event>, branch: string, start: Commit)
    requires Inv(s) && CanRun(s, run) && LinearInv(s, branch, start)
    requires forall e :: e in run ==> LeavesToMerges(e, s.matches, branch)
    ensures branch in After(s, run).repo.heads && LinearOver(start, After(s, run).repo.heads[branch])
    decreases |run|
  {
    if run != [] {
      StepInv(s, run[0]);
      LinearStep(s, run[0], branch, start);
      LinearHistory(Step(s, run[0]), run[1..], branch, start);
    }
  }

  // ---------------------------------------------------------------- lost commits and retries

  /** The steps of merging pull request `n`, over and over, whatever becomes of each attempt. */
  predicate IsAttemptOf(e: Event, n: PullId) {
    match e
    case BeginMerge(k, _, _, _, _) => k == n
    case ReadRefs(k, _, _) => k == n
    case WriteRefs(k) => k == n
    case CommitTx(k) => k == n
    case LoseTx(k) => k == n
    case Submit(_) => true
    case SetRules(_) => true
    case _ => false
  }

  /** The target holds the source's tree, and an attempt under way has read the two branches as they are. */
  ghost predicate TreesAgree(s: State, n: PullId, head: Commit) {
    && n in s.prs
    && var t, h := s.prs[n].target, s.prs[n].source;
       && t != h && t in s.repo.heads && Resolve(s.repo, h) == Some(head)
       && s.repo.heads[t].tree == head.tree
       && (n in s.locked && s.locked[n].phase.Planned? ==>
             s.locked[n].phase.base == s.repo.heads[t] && s.locked[n].phase.head == head)
  }

  lemma RetryStep(s: State, e: Event, n: PullId, head: Commit)
    requires Inv(s) && Enabled(s, e) && IsAttemptOf(e, n) && TreesAgree(s, n, head)
    ensures TreesAgree(Step(s, e), n, head)
    ensures IsAncestor(s.repo.heads[s.prs[n].target], Step(s, e).repo.heads[s.prs[n].target])
  {
    if e.WriteRefs? { CreatedFacts(s, n); }
  }

  /**
   * After the branch has moved but the database lost the merge, any number of further attempts by any
   * strategy, each failing, succeeding or being lost again, leaves head's tree on the target branch and
   * only adds commits to it.
   */
  lemma {:induction false} RetriesKeepTree(s: State, run: seq<Event>, n: PullId, head: Commit)
    requires Inv(s) && CanRun(s, run) && TreesAgree(s, n, head)
    requires forall e :: e in run ==> IsAttemptOf(e, n)
    ensures TreesAgree(After(s, run), n, head)
    ensures After(s, run).prs[n].target == s.prs[n].target
    ensures IsAncestor(s.repo.heads[s.prs[n].target], After(s, run).repo.heads[s.prs[n].target])
    decreases |run|
  {
    if run != [] {
      var s1 := Step(s, run[0]);
      StepInv(s, run[0]);
      RetryStep(s, run[0], n, head);
      RetriesKeepTree(s1, run[1..], n, head);
      AncestorTrans(s.repo.heads[s.prs[n].target], s1.repo.heads[s.prs[n].target],
                    After(s, run).repo.heads[s.prs[n].target]);
    }
  }

  /** The state in which the first attempt's transaction is lost is one from which RetriesKeepTree starts. */
  lemma LostCommitStartsRetries(s: State, n: PullId)
    requires Inv(s) && Enabled(s, WriteRefs(n))
    requires s.prs[n].source != s.prs[n].target && Resolve(s.repo, s.prs[n].source) == Some(s.locked[n].phase.head)
    ensures CanRun(s, [WriteRefs(n), LoseTx(n)])
    ensures var t := After(s, [WriteRefs(n), LoseTx(n)]);
            Inv(t) && t.prs == s.prs && n !in t.locked && TreesAgree(t, n, s.locked[n].phase.head)
  {
    CreatedFacts(s, n);
    WriteInv(s, n);
    var run := [WriteRefs(n), LoseTx(n)];
    var s1 := Step(s, WriteRefs(n));
    assert run[1..] == [LoseTx(n)] && run[1..][1..] == [];
    assert CanRun(Step(s1, LoseTx(n)), []);
    assert CanRun(s1, [LoseTx(n)]);
    StepInv(s1, LoseTx(n));
    assert After(s, run) == After(s1, [LoseTx(n)]) == Step(s1, LoseTx(n));
  }

  // ---------------------------------------------------------------- overlapping merges

  /**
   * The row lock does not cover the branch. When an attempt writes, the tip it replaces stays on the branch exactly
   * if it belongs to the history of the tip the attempt read, or is one of the commits written, or, after a merge
   * commit, belongs to the history of the source.
   */
  lemma WriteKeepsTipIff(s: State, n: PullId)
    requires Inv(s) && Enabled(s, WriteRefs(n)) && s.prs[n].target in s.repo.heads
    ensures PlanOf(s.locked[n]).Ok? && s.prs[n].target in Step(s, WriteRefs(n)).repo.heads
    ensures var a, tip := s.locked[n], s.repo.heads[s.prs[n].target];
            IsAncestor(tip, Step(s, WriteRefs(n)).repo.heads[s.prs[n].target])
            <==> IsAncestor(tip, a.phase.base) || tip in PlanOf(a).value
                 || (a.strategy == "merge" && IsAncestor(tip, a.phase.head))
  {
    CreatedFacts(s, n);
    var a := s.locked[n];
    PlanAncestors(a.phase.base, a.phase.head, a.strategy, a.message, a.sig, a.phase.bases, a.phase.log,
                  s.repo.heads[s.prs[n].target]);
  }

  /** So a tip that was put there since the attempt read the branch, and was not in the store then, is lost. */
  lemma {:induction false} WriteKeepsTipIffUnmoved(s: State, n: PullId)
    requires Inv(s) && Enabled(s, WriteRefs(n)) && s.prs[n].target in s.repo.heads
    requires var tip, p := s.repo.heads[s.prs[n].target], s.locked[n].phase;
             tip == p.base || (tip !in p.store && tip !in PlanOf(s.locked[n]).value)
    ensures var tip := s.repo.heads[s.prs[n].target];
            var after := Step(s, WriteRefs(n)).repo.heads[s.prs[n].target];
            IsAncestor(tip, after) <==> tip == s.locked[n].phase.base
  {
    WriteKeepsTipIff(s, n);
    assert AttemptOk(s, n);
    var p, tip := s.locked[n].phase, s.repo.heads[s.prs[n].target];
    var read := Repo(p.store, map[], map[]);
    if tip !in p.store && IsAncestor(tip, p.base) { AncestorStored(read, tip, p.base); }
    if tip !in p.store && IsAncestor(tip, p.head) { AncestorStored(read, tip, p.head); }
  }

  /** No merge writes over a tip it has not read, and nobody pushes to or deletes the branch. */
  ghost predicate NoOverlap(s: State, run: seq<Event>, branch: string)
    requires CanRun(s, run)
    decreases |run|
  {
    run == [] ||
    (&& !(run[0].Push? && run[0].branch == branch) && run[0] != DeleteBranch(branch)
     && (run[0].WriteRefs? && s.prs[run[0].pr].target == branch ==>
           branch in s.repo.heads && s.locked[run[0].pr].phase.base == s.repo.heads[branch])
     && NoOverlap(Step(s, run[0]), run[1..], branch))
  }

  /** Without overlaps, whatever a merge puts on the branch stays on it, through all later merges. */
  lemma {:induction false} MergesAccumulate(s: State, run: seq<Event>, branch: string, c: Commit)
    requires Inv(s) && CanRun(s, run) && NoOverlap(s, run, branch)
    requires branch in s.repo.heads && IsAncestor(c, s.repo.heads[branch])
    ensures branch in After(s, run).repo.heads && IsAncestor(c, After(s, run).repo.heads[branch])
    decreases |run|
  {
    if run != [] {
      StepInv(s, run[0]);
      if run[0].WriteRefs? && s.prs[run[0].pr].target == branch {
        CreatedFacts(s, run[0].pr);
        AncestorTrans(c, s.repo.heads[branch], Last(PlanOf(s.locked[run[0].pr]).value));
      }
      MergesAccumulate(Step(s, run[0]), run[1..], branch, c);
    }
  }

  lemma {:induction false} RunAppend(s: State, first: seq<Event>, second: seq<Event>)
    requires CanRun(s, first) && CanRun(After(s, first), second)
    ensures CanRun(s, first + second) && After(s, first + second) == After(After(s, first), second)
    decreases |first|
  {
    if first == [] {
      assert first + second == second;
    } else {
      assert (first + second)[1..] == first[1..] + second;
      RunAppend(Step(s, first[0]), first[1..], second);
    }
  }

  /** One more step at the end of a run. */
  lemma RunSnoc(s: State, run: seq<Event>, e: Event)
    requires CanRun(s, run) && Enabled(After(s, run), e)
    ensures CanRun(s, run + [e]) && After(s, run + [e]) == Step(After(s, run), e)
  {
    assert [e][1..] == [];
    assert CanRun(Step(After(s, run), e), []);
    RunAppend(s, run, [e]);
  }

  /** Both pull requests are checked and read the branch before either writes. */
  function OverlappingReads(n: PullId, k: PullId, merger: UserId, sig: Signature,
                            bases1: seq<Commit>, log1: seq<Commit>, bases2: seq<Commit>, log2: seq<Commit>): seq<Event>
  {
    [] + [BeginMerge(n, merger, "squash", "one", sig)] + [BeginMerge(k, merger, "squash", "two", sig)]
    + [ReadRefs(n, bases1, log1)] + [ReadRefs(k, bases2, log2)]
  }

  /** Two open pull requests without rules whose branches all exist. */
  ghost predicate BothMergeable(s: State, n: PullId, k: PullId) {
    && s.rules == [] && s.locked == map[] && n != k && n in s.prs && k in s.prs
    && s.prs[n].status == Open && s.prs[k].status == Open && s.prs[n].target == s.prs[k].target
    && s.prs[n].target in s.repo.heads && s.prs[n].source in s.repo.heads && s.prs[k].source in s.repo.heads
  }

  lemma ReadsOverlap(s: State, n: PullId, k: PullId, merger: UserId, sig: Signature,
                     bases1: seq<Commit>, log1: seq<Commit>, bases2: seq<Commit>, log2: seq<Commit>)
    requires Inv(s) && BothMergeable(s, n, k)
    requires Reported(s.repo, s.prs[n].target, s.prs[n].source, bases1, log1)
    requires Reported(s.repo, s.prs[k].target, s.prs[k].source, bases2, log2)
    ensures var run := OverlappingReads(n, k, merger, sig, bases1, log1, bases2, log2);
            CanRun(s, run) &&
            var t := After(s, run);
            var base := s.repo.heads[s.prs[n].target];
            && t == s.(locked := t.locked) && n in t.locked && k in t.locked
            && t.locked[n].phase == Planned(base, s.repo.heads[s.prs[n].source], bases1, log1, s.repo.objects)
            && t.locked[k].phase == Planned(base, s.repo.heads[s.prs[k].source], bases2, log2, s.repo.objects)
            && t.locked[n].strategy == t.locked[k].strategy == "squash"
            && t.locked[n].message == "one" && t.locked[k].message == "two"
            && t.locked[n].sig == t.locked[k].sig == sig
  {
    var e1, e2 := BeginMerge(n, merger, "squash", "one", sig), BeginMerge(k, merger, "squash", "two", sig);
    var e3, e4 := ReadRefs(n, bases1, log1), ReadRefs(k, bases2, log2);
    RunSnoc(s, [], e1);
    RunSnoc(s, [] + [e1], e2);
    RunSnoc(s, [] + [e1] + [e2], e3);
    RunSnoc(s, [] + [e1] + [e2] + [e3], e4);
  }

  /** The first of the two writes: its squash commit is on the branch and its pull request merged. */
  lemma FirstOfTwo(s: State, n: PullId, k: PullId, merger: UserId, sig: Signature,
                   bases1: seq<Commit>, log1: seq<Commit>, bases2: seq<Commit>, log2: seq<Commit>)
    requires Inv(s) && BothMergeable(s, n, k)
    requires Reported(s.repo, s.prs[n].target, s.prs[n].source, bases1, log1)
    requires Reported(s.repo, s.prs[k].target, s.prs[k].source, bases2, log2)
    ensures var run := OverlappingReads(n, k, merger, sig, bases1, log1, bases2, log2) + [WriteRefs(n)] + [CommitTx(n)];
            CanRun(s, run) &&
            var t, target, base := After(s, run), s.prs[n].target, s.repo.heads[s.prs[n].target];
            && n in t.prs && t.prs[n].status == Merged && k in t.prs && t.prs[k] == s.prs[k]
            && target in t.repo.heads
            && t.repo.heads[target] == SquashCommit(base, s.repo.heads[s.prs[n].source], "one", sig)
            && k in t.locked && t.locked[k].strategy == "squash" && t.locked[k].message == "two"
            && t.locked[k].sig == sig
            && t.locked[k].phase == Planned(base, s.repo.heads[s.prs[k].source], bases2, log2, s.repo.objects)
  {
    var looks := OverlappingReads(n, k, merger, sig, bases1, log1, bases2, log2);
    ReadsOverlap(s, n, k, merger, sig, bases1, log1, bases2, log2);
    RunSnoc(s, looks, WriteRefs(n));
    RunSnoc(s, looks + [WriteRefs(n)], CommitTx(n));
  }

  lemma NewCommitNotBelow(r: Repo, c: Commit, d: Commit, base: Commit)
    requires RepoOk(r) && base in r.objects && c !in r.objects && d.parents == [base] && c != d
    ensures !IsAncestor(c, d)
  {
    OneParent(c, d, base);
    if IsAncestor(c, base) { AncestorStored(r, c, base); }
  }

  /**
   * Whenever two open pull requests without rules have one target branch, this interleaving of two squash merges
   * ends with both shown as merged and `lost`, the commit the first one put on the branch, gone from it.
   */
  lemma OverlappingMergesLoseOne(s: State, n: PullId, k: PullId, merger: UserId, sig: Signature,
                                 bases1: seq<Commit>, log1: seq<Commit>, bases2: seq<Commit>, log2: seq<Commit>)
    requires Inv(s) && BothMergeable(s, n, k)
    requires Reported(s.repo, s.prs[n].target, s.prs[n].source, bases1, log1)
    requires Reported(s.repo, s.prs[k].target, s.prs[k].source, bases2, log2)
    requires SquashCommit(s.repo.heads[s.prs[n].target], s.repo.heads[s.prs[n].source], "one", sig) !in s.repo.objects
    ensures var target := s.prs[n].target;
            var lost := SquashCommit(s.repo.heads[target], s.repo.heads[s.prs[n].source], "one", sig);
            var run := OverlappingReads(n, k, merger, sig, bases1, log1, bases2, log2) + [WriteRefs(n)] + [CommitTx(n)];
            var all := run + [WriteRefs(k)] + [CommitTx(k)];
            CanRun(s, run) && CanRun(s, all) &&
            var t1, t2 := After(s, run), After(s, all);
            && n in t1.prs && t1.prs[n].status == Merged && target in t1.repo.heads && t1.repo.heads[target] == lost
            && n in t2.prs && t2.prs[n].status == Merged && k in t2.prs && t2.prs[k].status == Merged
            && target in t2.repo.heads && !IsAncestor(lost, t2.repo.heads[target])
  {
    var run := OverlappingReads(n, k, merger, sig, bases1, log1, bases2, log2) + [WriteRefs(n)] + [CommitTx(n)];
    var base := s.repo.heads[s.prs[n].target];
    var tip2 := SquashCommit(base, s.repo.heads[s.prs[k].source], "two", sig);
    FirstOfTwo(s, n, k, merger, sig, bases1, log1, bases2, log2);
    RunSnoc(s, run, WriteRefs(k));
    RunSnoc(s, run + [WriteRefs(k)], CommitTx(k));
    NewCommitNotBelow(s.repo, SquashCommit(base, s.repo.heads[s.prs[n].source], "one", sig), tip2, base);
  }

  /** Two pull requests opened in a repository without rules are such a pair, so the loss is reachable. */
  lemma OverlapIsReachable(s: State, n: PullId, k: PullId, author: UserId, source1: string, source2: string,
                           target: string)
    requires Initial(s) && s.rules == [] && n != k && source1 != target && source2 != target
    requires source1 in s.repo.heads && source2 in s.repo.heads && target in s.repo.heads
    ensures var run := [] + [Create(n, author, source1, target, false)] + [Create(k, author, source2, target, false)];
            CanRun(s, run) &&
            var t := After(s, run);
            Inv(t) && BothMergeable(t, n, k) && t.repo == s.repo
            && t.prs[n].source == source1 && t.prs[k].source == source2 && t.prs[n].target == target
  {
    var e1, e2 := Create(n, author, source1, target, false), Create(k, author, source2, target, false);
    InitialInv(s);
    RunSnoc(s, [], e1);
    RunSnoc(s, [] + [e1], e2);
    RunInv(s, [] + [e1] + [e2]);
  }

  // ---------------------------------------------------------------- the service

  datatype PullError =
    | PullNotFound | SameBranch | InvalidBranch | InvalidStatus
    | AlreadyMerged | NotOpen | InsufficientReviews | LinearRequired
    | MergeFailed(error: MergeError) | TxLost
    | InvalidReviewType | SelfReview

  /** The checks Merge makes before it touches git, in its order; None when they all pass. */
  function MergeRefusal(s: State, n: PullId, strategy: string): Option<PullError> {
    if !ValidStrategy(strategy) then Some(InvalidStatus)
    else if n !in s.prs then Some(PullNotFound)
    else if s.prs[n].status == Merged then Some(AlreadyMerged)
    else if s.prs[n].status != Open then Some(NotOpen)
    else
      var rule := Check(s.rules, s.matches, s.prs[n].target);
      if |Approvers(s.reviews, n)| < RequiredBy(rule) then Some(InsufficientReviews)
      else if rule.Some? && rule.value.requireLinear && strategy == "merge" then Some(LinearRequired)
      else None
  }

  function StrategyOf(requested: string): (how: string)
    ensures requested == "" ==> how == "merge"
    ensures requested in ["merge", "squash", "rebase"] ==> how == requested
    ensures ValidStrategy(how) ==> requested in ["", "merge", "squash", "rebase"]
  {
    if requested == "" then "merge" else requested
  }

  function MessageOf(message: string, n: PullId, p: PullRequest): (text: string)
    ensures message != "" ==> text == message
    ensures message == "" ==>
              text == "Merge pull request #" + Text.Decimal(n) + " from " + p.source + " into " + p.target
  {
    if message != "" then message
    else "Merge pull request #" + Text.Decimal(n) + " from " + p.source + " into " + p.target
  }

  /** The steps of one merge whose git part succeeds, up to the outcome of its transaction. */
  function MergeSteps(s: State, n: PullId, merger: UserId, strategy: string, message: string, sig: Signature,
                      bases: seq<Commit>, log: seq<Commit>): seq<Event>
    requires n in s.prs
  {
    [] + [BeginMerge(n, merger, StrategyOf(strategy), MessageOf(message, n, s.prs[n]), sig)]
    + [ReadRefs(n, bases, log)] + [WriteRefs(n)]
  }

  /** The state after the row is checked and the branches are read. */
  function PlannedState(s: State, n: PullId, merger: UserId, strategy: string, message: string, sig: Signature,
                        bases: seq<Commit>, log: seq<Commit>): State
    requires n in s.prs
    requires Resolve(s.repo, s.prs[n].target).Some? && Resolve(s.repo, s.prs[n].source).Some?
  {
    var phase := Planned(Resolve(s.repo, s.prs[n].target).value, Resolve(s.repo, s.prs[n].source).value,
                         bases, log, s.repo.objects);
    s.(locked := s.locked[n := Attempt(merger, strategy, message, sig, phase)])
  }

  lemma MergeReads(s: State, n: PullId, merger: UserId, strategy: string, message: string, sig: Signature,
                   bases: seq<Commit>, log: seq<Commit>)
    requires s.locked == map[] && n in s.prs && MergeRefusal(s, n, strategy).None?
    requires Reported(s.repo, s.prs[n].target, s.prs[n].source, bases, log)
    requires MergeResult(s.repo, s.prs[n].target, s.prs[n].source, strategy, message, sig, bases, log).1.Ok?
    ensures Resolve(s.repo, s.prs[n].target).Some? && Resolve(s.repo, s.prs[n].source).Some?
    ensures var run := [] + [BeginMerge(n, merger, strategy, message, sig)] + [ReadRefs(n, bases, log)];
            CanRun(s, run) && After(s, run) == PlannedState(s, n, merger, strategy, message, sig, bases, log)
  {
    var e := BeginMerge(n, merger, strategy, message, sig);
    assert Enabled(s, e);
    RunSnoc(s, [], e);
    var s1 := After(s, [] + [e]);
    assert s1 == BeginStep(s, n, merger, strategy, message, sig);
    RunSnoc(s, [] + [e], ReadRefs(n, bases, log));
    assert s1.locked[n].phase.Checked?;
  }

  lemma MergeStepsRun(s: State, n: PullId, merger: UserId, strategy: string, message: string, sig: Signature,
                      bases: seq<Commit>, log: seq<Commit>)
    requires Inv(s) && s.locked == map[] && n in s.prs && MergeRefusal(s, n, StrategyOf(strategy)).None?
    requires Reported(s.repo, s.prs[n].target, s.prs[n].source, bases, log)
    requires MergeResult(s.repo, s.prs[n].target, s.prs[n].source, StrategyOf(strategy),
                         MessageOf(message, n, s.prs[n]), sig, bases, log).1.Ok?
    ensures var run := MergeSteps(s, n, merger, strategy, message, sig, bases, log);
            CanRun(s, run) && Inv(After(s, run)) && Enabled(After(s, run), CommitTx(n))
            && var t := After(s, run);
               && t == s.(repo := t.repo, locked := t.locked)
               && t.locked.Keys == {n} && t.locked[n].merger == merger && t.locked[n].strategy == StrategyOf(strategy)
               && t.repo == MergeResult(s.repo, s.prs[n].target, s.prs[n].source, StrategyOf(strategy),
                                        MessageOf(message, n, s.prs[n]), sig, bases, log).0
  {
    var how, text := StrategyOf(strategy), MessageOf(message, n, s.prs[n]);
    var opening := [] + [BeginMerge(n, merger, how, text, sig)] + [ReadRefs(n, bases, log)];
    MergeReads(s, n, merger, how, text, sig, bases, log);
    RunInv(s, opening);
    var s2 := PlannedState(s, n, merger, how, text, sig, bases, log);
    CreatedFacts(s2, n);
    RunSnoc(s, opening, WriteRefs(n));
    StepInv(s2, WriteRefs(n));
  }

  /** The outcome of the transaction, once git has merged. */
  lemma MergeEnds(s: State, n: PullId, run: seq<Event>, lost: bool)
    requires CanRun(s, run) && Inv(After(s, run)) && Enabled(After(s, run), CommitTx(n))
    ensures var last := if lost then LoseTx(n) else CommitTx(n);
            CanRun(s, run + [last]) && Inv(After(s, run + [last]))
            && After(s, run + [last]) == Step(After(s, run), last)
  {
    var last := if lost then LoseTx(n) else CommitTx(n);
    RunSnoc(s, run, last);
    StepInv(After(s, run), last);
  }

  class PullService {
    var prs: map<PullId, PullRequest>
    var reviews: seq<Review>
    var rules: seq<Rule>
    const matches: (string, string) -> bool
    const git: GitService

    ghost function Snapshot(): State
      reads this, git
    {
      State(prs, reviews, rules, git.Snapshot(), map[], matches)
    }

    ghost predicate Valid()
      reads this, git
    {
      Inv(Snapshot())
    }

    constructor (git: GitService, matches: (string, string) -> bool)
      requires git.Valid()
      ensures Valid() && Initial(Snapshot()) && this.git == git && this.matches == matches
    {
      this.git, this.matches := git, matches;
      prs, reviews, rules := map[], [], [];
      new;
      InitialInv(Snapshot());
    }

    /** The branch checks of Create; number allocation and text fields are the caller's. */
    method Create(n: PullId, author: UserId, source: string, target: string, draft: bool)
      returns (r: Result<PullRequest, PullError>)
      requires Valid() && n !in prs
      modifies this
      ensures Valid()
      ensures r == Err(SameBranch) <==> source == target
      ensures r.Ok? <==> Enabled(old(Snapshot()), Event.Create(n, author, source, target, draft))
      ensures r.Ok? ==> Snapshot() == Step(old(Snapshot()), Event.Create(n, author, source, target, draft))
      ensures r == Err(InvalidBranch) <==>
                source != target && (Resolve(git.Snapshot(), source).None? || Resolve(git.Snapshot(), target).None?)
      ensures r.Ok? ==>
                && r.value == PullRequest(author, source, target, if draft then Draft else Open, "", None)
                && prs == old(prs)[n := r.value] && reviews == old(reviews) && rules == old(rules)
      ensures r.Err? ==> Snapshot() == old(Snapshot())
    {
      if source == target { return Err(SameBranch); }
      var s := git.ResolveRef(source);
      if s.None? { return Err(InvalidBranch); }
      var t := git.ResolveRef(target);
      if t.None? { return Err(InvalidBranch); }
      StepInv(Snapshot(), Event.Create(n, author, source, target, draft));
      var pr := PullRequest(author, source, target, if draft then Draft else Open, "", None);
      prs := prs[n := pr];
      r := Ok(pr);
    }

    /** One UPDATE with the requested assignments, guarded by status NOT IN ('merged'). */
    method Update(n: PullId, newTarget: Option<string>, newStatus: Option<string>)
      returns (r: Result<PullRequest, PullError>)
      requires Valid()
      modifies this
      ensures Valid()
      ensures r.Ok? <==> n in old(prs) && old(prs)[n].status != Merged
                         && (newStatus.None? || newStatus.value in ["draft", "open", "closed"])
      ensures r.Ok? ==> exists st :: Enabled(old(Snapshot()), Event.Update(n, newTarget, st))
                                     && Snapshot() == Step(old(Snapshot()), Event.Update(n, newTarget, st))
                                     && (st.Some? <==> newStatus.Some?) && prs[n] == r.value
      ensures r == Err(InvalidStatus) <==> newStatus.Some? && newStatus.value !in ["draft", "open", "closed"]
      ensures r.Ok? ==>
                && prs == old(prs)[n := r.value] && reviews == old(reviews) && rules == old(rules)
                && r.value == old(prs)[n].(status := r.value.status, target := r.value.target)
                && r.value.target == (if newTarget.Some? then newTarget.value else old(prs)[n].target)
                && r.value.status == (if newStatus == Some("draft") then Draft
                                      else if newStatus == Some("open") then Open
                                      else if newStatus == Some("closed") then Closed
                                      else old(prs)[n].status)
      ensures r.Err? ==> Snapshot() == old(Snapshot())
    {
      var status: Option<Status> := None;
      if newStatus.Some? {
        match newStatus.value {
          case "draft" => status := Some(Draft);
          case "open" => status := Some(Open);
          case "closed" => status := Some(Closed);
          case _ => return Err(InvalidStatus);
        }
      }
      if n !in prs || prs[n].status == Merged { return Err(PullNotFound); }
      ghost var before := Snapshot();
      ghost var e := Event.Update(n, newTarget, status);
      assert Enabled(before, e);
      StepInv(before, e);
      var p := prs[n];
      if newTarget.Some? { p := p.(target := newTarget.value); }
      if status.Some? { p := p.(status := status.value); }
      prs := prs[n := p];
      assert Snapshot() == Step(before, e);
      r := Ok(p);
    }

    /** review.Create. */
    method SubmitReview(n: PullId, author: UserId, kind: string, comments: seq<InlineComment>)
      returns (r: Result<Review, PullError>)
      requires Valid()
      modifies this
      ensures Valid()
      ensures r == Err(SelfReview) <==> ParseKind(kind).Some? && n in old(prs) && old(prs)[n].author == author
      ensures r.Ok? <==> ParseKind(kind).Some? && n in old(prs) && old(prs)[n].author != author
      ensures r.Ok? ==> r.value == Review(n, author, ParseKind(kind).value, comments)
                        && Snapshot() == Step(old(Snapshot()), Submit(r.value))
      ensures r.Ok? ==>
                && reviews == old(reviews) + [r.value] && prs == old(prs) && rules == old(rules)
                && (r.value.kind == Approval <==> kind == "approval")
                && (r.value.kind == ChangesRequested <==> kind == "changes_requested")
      ensures r == Err(InvalidReviewType) <==> kind !in ["approval", "changes_requested", "comment"]
      ensures r.Err? ==> Snapshot() == old(Snapshot())
    {
      var parsed := ParseKind(kind);
      if parsed.None? { return Err(InvalidReviewType); }
      if n !in prs { return Err(PullNotFound); }
      if prs[n].author == author { return Err(SelfReview); }
      var review := Review(n, author, parsed.value, comments);
      StepInv(Snapshot(), Submit(review));
      reviews := reviews + [review];
      r := Ok(review);
    }

    /** protection.Check's loop over the rules of the repository. */
    method CheckProtection(branch: string) returns (rule: Option<Rule>)
      ensures rule == Check(rules, matches, branch)
      ensures rule.None? <==> forall i :: 0 <= i < |rules| ==> !matches(rules[i].pattern, branch)
      ensures rule.Some? ==>
                exists i :: 0 <= i < |rules| && rule.value == rules[i] && matches(rules[i].pattern, branch)
                            && forall k :: 0 <= k < i ==> !matches(rules[k].pattern, branch)
    {
      CheckIsFirstMatch(rules, matches, branch);
      for i := 0 to |rules|
        invariant Check(rules, matches, branch) == Check(rules[i..], matches, branch)
      {
        assert rules[i..][1..] == rules[i + 1..];
        if matches(rules[i].pattern, branch) { return Some(rules[i]); }
      }
      return None;
    }

    /** The checks of Merge, made while it holds the row. */
    method CheckMerge(n: PullId, how: string) returns (refusal: Option<PullError>)
      ensures refusal == MergeRefusal(Snapshot(), n, how)
      ensures refusal == Some(InvalidStatus) <==> how != "merge" && how != "squash" && how != "rebase"
      ensures ValidStrategy(how) ==> (refusal == Some(PullNotFound) <==> n !in prs)
      ensures ValidStrategy(how) && n in prs ==>
                && (refusal == Some(AlreadyMerged) <==> prs[n].status == Merged)
                && (refusal == Some(NotOpen) <==> prs[n].status == Draft || prs[n].status == Closed)
      ensures ValidStrategy(how) && n in prs && prs[n].status == Open ==>
                && (refusal.None? <==>
                      forall i: nat :: IsFirstMatch(rules, matches, prs[n].target, i) ==>
                        rules[i].requiredReviews <= |Approvers(reviews, n)|
                        && !(rules[i].requireLinear && how == "merge"))
                && (refusal == Some(InsufficientReviews) <==>
                      exists i: nat :: IsFirstMatch(rules, matches, prs[n].target, i)
                                       && |Approvers(reviews, n)| < rules[i].requiredReviews)
    {
      if ValidStrategy(how) && n in prs { CheckIsFirstMatch(rules, matches, prs[n].target); }
      if !ValidStrategy(how) { return Some(InvalidStatus); }
      if n !in prs { return Some(PullNotFound); }
      if prs[n].status == Merged { return Some(AlreadyMerged); }
      if prs[n].status != Open { return Some(NotOpen); }
      var rule := CheckProtection(prs[n].target);
      if rule.Some? {
        if rule.value.requiredReviews > 0 {
          if |Approvers(reviews, n)| < rule.value.requiredReviews { return Some(InsufficientReviews); }
        }
        if rule.value.requireLinear && how == "merge" { return Some(LinearRequired); }
      }
      return None;
    }

    /** `txLost` is whether the UPDATE or the commit of the transaction fails after git has merged. */
    method Merge(n: PullId, merger: UserId, strategy: string, message: string, sig: Signature,
                 bases: seq<Commit>, log: seq<Commit>, txLost: bool) returns (r: Result<PullRequest, PullError>)
      requires Valid()
      requires n in prs ==> Reported(git.Snapshot(), prs[n].target, prs[n].source, bases, log)
      modifies this`prs, git
      ensures Valid()
      ensures var refusal := MergeRefusal(old(Snapshot()), n, StrategyOf(strategy));
              refusal.Some? ==> r == Err(refusal.value)
      ensures r.Ok? ==>
                && n in old(prs)
                && r.value == old(prs)[n].(status := Merged, mergedBy := Some(merger),
                                           strategy := if strategy == "" then "merge" else strategy)
                && prs == old(prs)[n := r.value]
      ensures r.Err? ==> prs == old(prs)
      ensures MergeRefusal(old(Snapshot()), n, StrategyOf(strategy)).None? ==>
                && n in old(prs)
                && var pr := old(prs)[n];
                   var m := MergeResult(old(git.Snapshot()), pr.target, pr.source, StrategyOf(strategy),
                                        MessageOf(message, n, pr), sig, bases, log);
                   && git.Snapshot() == m.0
                   && (m.1.Err? ==> r == Err(MergeFailed(m.1.error)))
                   && (m.1.Ok? ==> if txLost then r == Err(TxLost) else r.Ok?)
      ensures r.Ok? || r == Err(TxLost) ==>
                n in old(prs)
                && MergedBy(old(Snapshot()), Snapshot(),
                            MergeSteps(old(Snapshot()), n, merger, strategy, message, sig, bases, log),
                            if r.Ok? then CommitTx(n) else LoseTx(n))
      ensures r.Err? && r.error != TxLost ==> Snapshot() == old(Snapshot())
    {
      var refusal := CheckMerge(n, StrategyOf(strategy));
      if refusal.Some? { return Err(refusal.value); }
      r := MergeChecked(n, merger, strategy, message, sig, bases, log, txLost);
    }

    /** The part of Merge after its checks. */
    method MergeChecked(n: PullId, merger: UserId, strategy: string, message: string, sig: Signature,
                        bases: seq<Commit>, log: seq<Commit>, txLost: bool) returns (r: Result<PullRequest, PullError>)
      requires Valid() && MergeRefusal(Snapshot(), n, StrategyOf(strategy)).None? && n in prs
      requires Reported(git.Snapshot(), prs[n].target, prs[n].source, bases, log)
      modifies this`prs, git
      ensures Valid()
      ensures r.Ok? ==>
                r.value == old(prs)[n].(status := Merged, mergedBy := Some(merger), strategy := StrategyOf(strategy))
      ensures prs == if r.Ok? then old(prs)[n := r.value] else old(prs)
      ensures r.Ok? || r == Err(TxLost) ==>
                MergedBy(old(Snapshot()), Snapshot(),
                         MergeSteps(old(Snapshot()), n, merger, strategy, message, sig, bases, log),
                         if r.Ok? then CommitTx(n) else LoseTx(n))
      ensures r.Err? && r.error != TxLost ==> Snapshot() == old(Snapshot())
      ensures var pr := old(prs)[n];
              var m := MergeResult(old(git.Snapshot()), pr.target, pr.source, StrategyOf(strategy),
                                   MessageOf(message, n, pr), sig, bases, log);
              && git.Snapshot() == m.0
              && (m.1.Err? ==> r == Err(MergeFailed(m.1.error)))
              && (m.1.Ok? ==> if txLost then r == Err(TxLost) else r.Ok?)
    {
      ghost var before := Snapshot();
      var pr, how := prs[n], StrategyOf(strategy);
      var merged := git.MergeBranches(pr.target, pr.source, how, MessageOf(message, n, pr), sig, bases, log);
      if merged.Err? { return Err(MergeFailed(merged.error)); }
      MergeStepsRun(before, n, merger, strategy, message, sig, bases, log);
      ghost var run := MergeSteps(before, n, merger, strategy, message, sig, bases, log);
      r := Finish(before, run, n, merger, how, txLost);
    }

    /** The end of Merge's transaction: the UPDATE of the row and its commit, or neither. */
    method Finish(ghost before: State, ghost run: seq<Event>, n: PullId, merger: UserId, how: string, txLost: bool)
      returns (r: Result<PullRequest, PullError>)
      requires CanRun(before, run) && Inv(After(before, run)) && Enabled(After(before, run), CommitTx(n))
      requires n in prs
      requires var t := After(before, run);
               t.locked.Keys == {n} && t.locked[n].merger == merger && t.locked[n].strategy == how
               && Snapshot() == t.(locked := map[])
      modifies this`prs
      ensures Valid()
      ensures r == if txLost then Err(TxLost)
                   else Ok(old(prs)[n].(status := Merged, strategy := how, mergedBy := Some(merger)))
      ensures prs == if r.Ok? then old(prs)[n := r.value] else old(prs)
      ensures MergedBy(before, Snapshot(), run, if r.Ok? then CommitTx(n) else LoseTx(n))
    {
      MergeEnds(before, n, run, txLost);
      if txLost {
        assert Snapshot() == Step(After(before, run), LoseTx(n));
        return Err(TxLost);
      }
      prs := prs[n := prs[n].(status := Merged, strategy := how, mergedBy := Some(merger))];
      assert Snapshot() == Step(After(before, run), CommitTx(n));
      r := Ok(prs[n]);
    }
  }

  /** `after` is where the steps of a merge, ended by `last`, lead from `before`. */
  ghost predicate MergedBy(before: State, after: State, run: seq<Event>, last: Event) {
    CanRun(before, run + [last]) && after == After(before, run + [last])
  }
}
