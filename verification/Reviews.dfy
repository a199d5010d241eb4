/**
 * Pull request reviews (internal/services/review/service.go): who has approved, the summary shown on
 * the pull request, and inline-comment threads. A pull request's reviews are in submission order.
 */
module Reviews {
  import opened Common

  type UserId = nat
  type PullId = nat

  datatype Kind = Approval | ChangesRequested | Remark

  datatype InlineComment = InlineComment(thread: string, resolved: bool)

  datatype Review = Review(pr: PullId, author: UserId, kind: Kind, comments: seq<InlineComment>)

  function ParseKind(s: string): (kind: Option<Kind>)
    ensures kind == Some(Approval) <==> s == "approval"
    ensures kind == Some(ChangesRequested) <==> s == "changes_requested"
    ensures kind == Some(Remark) <==> s == "comment"
    ensures kind.None? <==> s !in ["approval", "changes_requested", "comment"]
  {
    if s == "approval" then Some(Approval)
    else if s == "changes_requested" then Some(ChangesRequested)
    else if s == "comment" then Some(Remark)
    else None
  }

  /** SELECT DISTINCT author_id ... WHERE type = 'approval': what the merge gate counts. */
  function Approvers(reviews: seq<Review>, pr: PullId): set<UserId> {
    set r | r in reviews && r.pr == pr && r.kind == Approval :: r.author
  }

  /** What the gate counts: the authors of approvals of this pull request, each once, and nobody else. */
  lemma ApproversAre(reviews: seq<Review>, pr: PullId, user: UserId)
    ensures user in Approvers(reviews, pr) <==> HasApproved(reviews, pr, user)
  {
    if HasApproved(reviews, pr, user) {
      var i :| 0 <= i < |reviews| && reviews[i] == Review(pr, user, Approval, reviews[i].comments);
      assert reviews[i] in reviews;
    }
  }

  predicate HasApproved(reviews: seq<Review>, pr: PullId, user: UserId) {
    exists i | 0 <= i < |reviews| :: reviews[i] == Review(pr, user, Approval, reviews[i].comments)
  }

  /** The kind of the last review of `author`: the row DISTINCT ON keeps for the summary. */
  function Latest(reviews: seq<Review>, pr: PullId, author: UserId): Option<Kind> {
    if reviews == [] then None
    else
      var r := reviews[|reviews| - 1];
      if r.pr == pr && r.author == author then Some(r.kind)
      else Latest(reviews[..|reviews| - 1], pr, author)
  }

  function Reviewers(reviews: seq<Review>, pr: PullId): set<UserId> {
    set r | r in reviews && r.pr == pr :: r.author
  }

  /** approved_by of the review summary. */
  function ApprovedBy(reviews: seq<Review>, pr: PullId): set<UserId> {
    set a | a in Reviewers(reviews, pr) && Latest(reviews, pr, a) == Some(Approval)
  }

  lemma {:induction false} LatestIsAReview(reviews: seq<Review>, pr: PullId, author: UserId)
    requires Latest(reviews, pr, author).Some?
    ensures exists r :: r in reviews && r.pr == pr && r.author == author
                        && r.kind == Latest(reviews, pr, author).value
    decreases |reviews|
  {
    var r := reviews[|reviews| - 1];
    if !(r.pr == pr && r.author == author) {
      LatestIsAReview(reviews[..|reviews| - 1], pr, author);
    }
  }

  /** The summary goes by an author's last review of the pull request. */
  lemma {:induction false} LatestIsLast(reviews: seq<Review>, i: nat)
    requires i < |reviews|
    requires forall j :: i < j < |reviews| ==> reviews[j].pr != reviews[i].pr || reviews[j].author != reviews[i].author
    ensures Latest(reviews, reviews[i].pr, reviews[i].author) == Some(reviews[i].kind)
    decreases |reviews|
  {
    if i < |reviews| - 1 { LatestIsLast(reviews[..|reviews| - 1], i); }
  }

  /**
   * The merge gate counts an approval even after its author has moved on; the summary does not. The two
   * counts agree exactly when the latest review of everyone who ever approved is still an approval.
   */
  lemma GateAgreesWithSummary(reviews: seq<Review>, pr: PullId)
    ensures ApprovedBy(reviews, pr) <= Approvers(reviews, pr)
    ensures |ApprovedBy(reviews, pr)| == |Approvers(reviews, pr)|
       <==> forall a :: a in Approvers(reviews, pr) ==> Latest(reviews, pr, a) == Some(Approval)
  {
    var summary, gate := ApprovedBy(reviews, pr), Approvers(reviews, pr);
    forall a | a in summary ensures a in gate { LatestIsAReview(reviews, pr, a); }
    if forall a :: a in gate ==> Latest(reviews, pr, a) == Some(Approval) {
      forall a | a in gate ensures a in summary {
        var r :| r in reviews && r.pr == pr && r.kind == Approval && r.author == a;
        assert r.author in Reviewers(reviews, pr);
      }
      assert summary == gate;
    } else {
      var a :| a in gate && Latest(reviews, pr, a) != Some(Approval);
      assert a !in summary;
      SmallerWithout(summary, gate, a);
    }
  }

  lemma SmallerWithout<T>(a: set<T>, b: set<T>, x: T)
    requires a <= b && x in b && x !in a
    ensures |a| < |b|
  {
    Subsize(a, b - {x});
  }

  lemma Subsize<T>(a: set<T>, b: set<T>)
    requires a <= b
    ensures |a| <= |b|
    decreases a
  {
    if a != {} {
      var x :| x in a;
      Subsize(a - {x}, b - {x});
    }
  }

  /** One approval followed by a request for changes still satisfies a rule of one required review. */
  lemma WithdrawnApprovalStillCounts(pr: PullId, reviewer: UserId)
    ensures var reviews := [Review(pr, reviewer, Approval, []), Review(pr, reviewer, ChangesRequested, [])];
            |Approvers(reviews, pr)| == 1 && ApprovedBy(reviews, pr) == {}
  {
    var reviews := [Review(pr, reviewer, Approval, []), Review(pr, reviewer, ChangesRequested, [])];
    assert reviews[0] in reviews;
    assert Approvers(reviews, pr) == {reviewer};
  }

  // ---------------------------------------------------------------- threads

  function AllComments(reviews: seq<Review>, pr: PullId): seq<InlineComment> {
    if reviews == [] then []
    else AllComments(reviews[..|reviews| - 1], pr)
         + (if reviews[|reviews| - 1].pr == pr then reviews[|reviews| - 1].comments else [])
  }

  /** They are the comments of the reviews of this pull request. */
  lemma {:induction false} AllCommentsAre(reviews: seq<Review>, pr: PullId, c: InlineComment)
    ensures c in AllComments(reviews, pr)
       <==> exists i | 0 <= i < |reviews| :: reviews[i].pr == pr && c in reviews[i].comments
    decreases |reviews|
  {
    if reviews != [] {
      var init := reviews[..|reviews| - 1];
      AllCommentsAre(init, pr, c);
      if i :| 0 <= i < |init| && init[i].pr == pr && c in init[i].comments {
        assert reviews[i] == init[i];
      }
    }
  }

  predicate InThread(comments: seq<InlineComment>, thread: string) {
    exists i | 0 <= i < |comments| :: comments[i].thread == thread
  }

  predicate IsResolved(comments: seq<InlineComment>, thread: string) {
    exists i | 0 <= i < |comments| :: comments[i].thread == thread && comments[i].resolved
  }

  /** The threads among `comments`, each with whether some comment in it is marked resolved. */
  function Threads(comments: seq<InlineComment>): (m: map<string, bool>)
    ensures forall t :: t in m <==> t != "" && InThread(comments, t)
    ensures forall t :: t in m ==> (m[t] <==> IsResolved(comments, t))
  {
    var ids := set i | 0 <= i < |comments| && comments[i].thread != "" :: comments[i].thread;
    map t | t in ids :: IsResolved(comments, t)
  }

  /** A thread is shown as resolved exactly if one of its comments is. */
  lemma ThreadIsResolvedIff(comments: seq<InlineComment>, i: nat)
    requires i < |comments| && comments[i].thread != ""
    ensures var t := comments[i].thread;
            t in Threads(comments)
            && (Threads(comments)[t] <==>
                exists j | 0 <= j < |comments| :: comments[j].thread == t && comments[j].resolved)
  {
  }

  function CountOf(m: map<string, bool>, resolved: bool): nat {
    |set t | t in m && m[t] == resolved|
  }

  /** The comments after ResolveThread's UPDATE: the flag is set on every comment of the thread. */
  function SetResolved(comments: seq<InlineComment>, thread: string, resolved: bool): (r: seq<InlineComment>)
    ensures |r| == |comments|
  {
    seq(|comments|, i requires 0 <= i < |comments| =>
      if comments[i].thread == thread then comments[i].(resolved := resolved) else comments[i])
  }

  function ResolveIn(r: Review, pr: PullId, thread: string, resolved: bool): Review {
    if r.pr == pr then r.(comments := SetResolved(r.comments, thread, resolved)) else r
  }

  function ResolveAll(reviews: seq<Review>, pr: PullId, thread: string, resolved: bool): (r: seq<Review>)
    ensures |r| == |reviews|
  {
    seq(|reviews|, i requires 0 <= i < |reviews| => ResolveIn(reviews[i], pr, thread, resolved))
  }

  lemma {:induction false} ResolveAllComments(reviews: seq<Review>, pr: PullId, thread: string, resolved: bool)
    ensures AllComments(ResolveAll(reviews, pr, thread, resolved), pr)
         == SetResolved(AllComments(reviews, pr), thread, resolved)
    decreases |reviews|
  {
    if reviews != [] {
      var n := |reviews| - 1;
      var after := ResolveAll(reviews, pr, thread, resolved);
      ResolveAllComments(reviews[..n], pr, thread, resolved);
      assert after[..n] == ResolveAll(reviews[..n], pr, thread, resolved);
    }
  }

  /** Resolving (or reopening) a thread gives it that status and changes no other thread's. */
  lemma ResolveThreadEffect(reviews: seq<Review>, pr: PullId, thread: string, resolved: bool)
    requires thread in Threads(AllComments(reviews, pr))
    ensures Threads(AllComments(ResolveAll(reviews, pr, thread, resolved), pr))
         == Threads(AllComments(reviews, pr))[thread := resolved]
  {
    var before := AllComments(reviews, pr);
    ResolveAllComments(reviews, pr, thread, resolved);
    var after := SetResolved(before, thread, resolved);
    forall t: string ensures InThread(after, t) <==> InThread(before, t) { SameThreads(before, thread, resolved, t); }
    forall t: string | InThread(before, t)
      ensures IsResolved(after, t) <==> (if t == thread then resolved else IsResolved(before, t))
    {
      SameThreads(before, thread, resolved, t);
    }
  }

  lemma SameThreads(before: seq<InlineComment>, thread: string, resolved: bool, t: string)
    ensures var after := SetResolved(before, thread, resolved);
            && (InThread(after, t) <==> InThread(before, t))
            && (InThread(before, t) ==>
                  (IsResolved(after, t) <==> (if t == thread then resolved else IsResolved(before, t))))
  {
    var after := SetResolved(before, thread, resolved);
    if InThread(before, t) {
      var i :| 0 <= i < |before| && before[i].thread == t;
      assert after[i].thread == t;
      assert t == thread && resolved ==> after[i].resolved;
    }
    if IsResolved(before, t) && t != thread {
      var i :| 0 <= i < |before| && before[i].thread == t && before[i].resolved;
      assert after[i].thread == t && after[i].resolved;
    }
  }

  /** countThreads: the nested loops over reviews and comments, then the loop over the map. */
  method CountThreads(reviews: seq<Review>, pr: PullId) returns (resolved: nat, unresolved: nat)
    ensures resolved == CountOf(Threads(AllComments(reviews, pr)), true)
    ensures unresolved == CountOf(Threads(AllComments(reviews, pr)), false)
  {
    var threadResolved: map<string, bool> := map[];
    for i := 0 to |reviews|
      invariant threadResolved == Threads(AllComments(reviews[..i], pr))
    {
      assert reviews[..i + 1][..i] == reviews[..i];
      if reviews[i].pr == pr {
        threadResolved := AddComments(AllComments(reviews[..i], pr), threadResolved, reviews[i].comments);
      } else {
        assert AllComments(reviews[..i + 1], pr) == AllComments(reviews[..i], pr);
      }
    }
    assert reviews[..|reviews|] == reviews;
    resolved, unresolved := CountMap(threadResolved);
  }

  /** The inner loop: the comments of one review. */
  method AddComments(ghost seen: seq<InlineComment>, m: map<string, bool>, comments: seq<InlineComment>)
    returns (threadResolved: map<string, bool>)
    requires m == Threads(seen)
    ensures threadResolved == Threads(seen + comments)
  {
    threadResolved := m;
    assert seen + comments[..0] == seen;
    for j := 0 to |comments|
      invariant threadResolved == Threads(seen + comments[..j])
    {
      NextComment(seen, comments, j);
      var c := comments[j];
      if c.thread == "" { continue; }
      if c.thread !in threadResolved {
        threadResolved := threadResolved[c.thread := false];
      }
      if c.resolved {
        threadResolved := threadResolved[c.thread := true];
      }
    }
    assert comments[..|comments|] == comments;
  }

  lemma NextComment(seen: seq<InlineComment>, comments: seq<InlineComment>, j: nat)
    requires j < |comments|
    ensures var c, before := comments[j], Threads(seen + comments[..j]);
            Threads(seen + comments[..j + 1])
            == if c.thread == "" then before
               else before[c.thread := c.resolved || (c.thread in before && before[c.thread])]
  {
    ThreadsSnoc(seen + comments[..j], comments[j]);
    assert seen + comments[..j + 1] == (seen + comments[..j]) + [comments[j]];
  }

  lemma ThreadsSnoc(seen: seq<InlineComment>, c: InlineComment)
    ensures Threads(seen + [c])
         == if c.thread == "" then Threads(seen)
            else Threads(seen)[c.thread := c.resolved || (c.thread in Threads(seen) && Threads(seen)[c.thread])]
  {
    var all := seen + [c];
    forall t: string
      ensures InThread(all, t) <==> InThread(seen, t) || c.thread == t
      ensures IsResolved(all, t) <==> IsResolved(seen, t) || (c.thread == t && c.resolved)
    {
      assert all[|seen|] == c;
      if InThread(seen, t) {
        var i :| 0 <= i < |seen| && seen[i].thread == t;
        assert all[i] == seen[i];
      }
      if IsResolved(seen, t) {
        var i :| 0 <= i < |seen| && seen[i].thread == t && seen[i].resolved;
        assert all[i] == seen[i];
      }
    }
  }

  method CountMap(m: map<string, bool>) returns (resolved: nat, unresolved: nat)
    ensures resolved == CountOf(m, true) && unresolved == CountOf(m, false)
  {
    resolved, unresolved := 0, 0;
    var todo := m.Keys;
    NothingCounted(m);
    while todo != {}
      invariant todo <= m.Keys
      invariant resolved == |Counted(m, todo, true)| && unresolved == |Counted(m, todo, false)|
    {
      var t :| t in todo;
      CountNext(m, todo, t);
      if m[t] {
        resolved := resolved + 1;
      } else {
        unresolved := unresolved + 1;
      }
      todo := todo - {t};
    }
    assert Counted(m, {}, true) == (set t | t in m && m[t] == true);
    assert Counted(m, {}, false) == (set t | t in m && m[t] == false);
  }

  /** The threads with this status, those still to be looked at left out. */
  function Counted(m: map<string, bool>, todo: set<string>, status: bool): set<string> {
    set t | t in m && t !in todo && m[t] == status
  }

  lemma NothingCounted(m: map<string, bool>)
    ensures Counted(m, m.Keys, true) == {} && Counted(m, m.Keys, false) == {}
  {
  }

  lemma CountNext(m: map<string, bool>, todo: set<string>, t: string)
    requires t in todo && t in m
    ensures |Counted(m, todo - {t}, m[t])| == |Counted(m, todo, m[t])| + 1
    ensures Counted(m, todo - {t}, !m[t]) == Counted(m, todo, !m[t])
  {
    assert Counted(m, todo - {t}, m[t]) == Counted(m, todo, m[t]) + {t};
  }
}
