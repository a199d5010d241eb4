/**
 * The merge engine (internal/git/service.go, MergeBranches and its three strategies).
 *
 * A commit's hash is determined by its content, parent hashes included. With hashes taken to be
 * collision-free a commit is therefore the same thing as the value below: an inductive datatype whose
 * parents are commits. Equality of hashes is equality of values, and no commit is its own ancestor.
 */
module Git {
  import opened Common

  type Tree = string

  datatype Signature = Signature(name: string, email: string, when: int)

  datatype Commit = Commit(author: Signature, committer: Signature, message: string, tree: Tree,
                           parents: seq<Commit>)

  /** A bare repository: the object store, the branches and the tags. */
  datatype Repo = Repo(objects: set<Commit>, heads: map<string, Commit>, tags: map<string, Commit>)

  datatype MergeError =
    | BaseNotFound | HeadNotFound | UnknownStrategy
    | NotFastForward | NoCommonAncestor | Diverged | NothingToRebase

  // ---------------------------------------------------------------- ancestry

  /** Commit.IsAncestor: `a` is reachable from `c` by zero or more parent links. */
  predicate IsAncestor(a: Commit, c: Commit)
    decreases c
  {
    a == c || exists i | 0 <= i < |c.parents| :: IsAncestor(a, c.parents[i])
  }

  function Weight(c: Commit): (w: nat)
    ensures w > 0
    decreases c, 1
  {
    1 + WeightAll(c.parents)
  }

  function WeightAll(cs: seq<Commit>): nat
    decreases cs, 0
  {
    if cs == [] then 0 else Weight(cs[0]) + WeightAll(cs[1..])
  }

  lemma ParentWeight(cs: seq<Commit>, i: nat)
    requires i < |cs|
    ensures Weight(cs[i]) <= WeightAll(cs)
  {
    if i > 0 { ParentWeight(cs[1..], i - 1); }
  }

  lemma {:induction false} AncestorWeight(a: Commit, c: Commit)
    requires IsAncestor(a, c)
    ensures a == c || Weight(a) < Weight(c)
    decreases c
  {
    if a != c {
      var i :| 0 <= i < |c.parents| && IsAncestor(a, c.parents[i]);
      AncestorWeight(a, c.parents[i]);
      ParentWeight(c.parents, i);
    }
  }

  lemma {:induction false} AncestorTrans(a: Commit, b: Commit, c: Commit)
    requires IsAncestor(a, b) && IsAncestor(b, c)
    ensures IsAncestor(a, c)
    decreases c
  {
    if b != c {
      var i :| 0 <= i < |c.parents| && IsAncestor(b, c.parents[i]);
      AncestorTrans(a, b, c.parents[i]);
    }
  }

  /** Ancestry is a partial order: the commit graph has no cycles. */
  lemma AncestorAntisym(a: Commit, b: Commit)
    requires IsAncestor(a, b) && IsAncestor(b, a)
    ensures a == b
  {
    AncestorWeight(a, b);
    AncestorWeight(b, a);
  }

  lemma ParentIsAncestor(p: Commit, c: Commit)
    requires p in c.parents
    ensures IsAncestor(p, c) && p != c
  {
    var i :| 0 <= i < |c.parents| && c.parents[i] == p;
    assert IsAncestor(p, c.parents[i]);
    ParentWeight(c.parents, i);
  }

  /** Every parent of a stored object is stored, and every ref points into the store. */
  ghost predicate RepoOk(r: Repo) {
    && (forall c, p :: c in r.objects && p in c.parents ==> p in r.objects)
    && (forall b :: b in r.heads ==> r.heads[b] in r.objects)
    && (forall t :: t in r.tags ==> r.tags[t] in r.objects)
  }

  lemma {:induction false} AncestorStored(r: Repo, a: Commit, c: Commit)
    requires RepoOk(r) && c in r.objects && IsAncestor(a, c)
    ensures a in r.objects
    decreases c
  {
    if a != c {
      var i :| 0 <= i < |c.parents| && IsAncestor(a, c.parents[i]);
      AncestorStored(r, a, c.parents[i]);
    }
  }

  // ---------------------------------------------------------------- what go-git supplies

  /** A best common ancestor: common, and no other common ancestor descends from it. */
  ghost predicate BestCommon(c: Commit, a: Commit, b: Commit) {
    && IsAncestor(c, a) && IsAncestor(c, b)
    && forall d :: IsAncestor(d, a) && IsAncestor(d, b) && IsAncestor(c, d) ==> d == c
  }

  /** A possible result of Commit.MergeBase. */
  ghost predicate IsMergeBases(bases: seq<Commit>, a: Commit, b: Commit) {
    forall c :: c in bases <==> BestCommon(c, a, b)
  }

  /**
   * A possible iteration order of Repository.Log: it starts at `from`, goes on only to parents of
   * commits already given, gives none twice, and gives every commit reachable from `from`.
   */
  ghost predicate IsLog(log: seq<Commit>, from: Commit) {
    && log != [] && log[0] == from
    && NoDup(log)
    && (forall i :: 0 < i < |log| ==> ParentOfEarlier(log, i))
    && (forall c :: IsAncestor(c, from) ==> c in log)
  }

  ghost predicate ParentOfEarlier(log: seq<Commit>, i: nat)
    requires i < |log|
  {
    exists j :: 0 <= j < i && log[i] in log[j].parents
  }

  /** When base is an ancestor of head, base itself is the only merge base. */
  lemma MergeBaseOfAncestor(bases: seq<Commit>, base: Commit, head: Commit)
    requires IsMergeBases(bases, base, head) && IsAncestor(base, head)
    ensures bases != [] && forall c :: c in bases ==> c == base
  {
    assert BestCommon(base, base, head) by {
      forall d | IsAncestor(d, base) && IsAncestor(base, d) ensures d == base { AncestorAntisym(d, base); }
    }
    assert base in bases;
    forall c | c in bases ensures c == base {
      assert BestCommon(c, base, head);
      assert IsAncestor(base, base);
    }
  }

  // ---------------------------------------------------------------- the three strategies

  function MergeCommit(base: Commit, head: Commit, message: string, sig: Signature): Commit {
    Commit(sig, sig, message, head.tree, [base, head])
  }

  function SquashCommit(base: Commit, head: Commit, message: string, sig: Signature): Commit {
    Commit(sig, sig, message, head.tree, [base])
  }

  /** One replayed commit: the original author, message and tree on a new single parent. */
  function Rewrite(c: Commit, tip: Commit, sig: Signature): Commit {
    Commit(c.author, sig, c.message, c.tree, [tip])
  }

  function Replay(tip: Commit, cs: seq<Commit>, sig: Signature): (r: seq<Commit>)
    ensures |r| == |cs|
    decreases |cs|
  {
    if cs == [] then [] else [Rewrite(cs[0], tip, sig)] + Replay(Rewrite(cs[0], tip, sig), cs[1..], sig)
  }

  /** The commits of the log before the first occurrence of `stop`. */
  function TakeUntil(log: seq<Commit>, stop: Commit): (r: seq<Commit>)
    ensures |r| <= |log| && r == log[..|r|] && stop !in r
    ensures |r| < |log| ==> log[|r|] == stop
  {
    if log == [] || log[0] == stop then [] else [log[0]] + TakeUntil(log[1..], stop)
  }

  lemma {:induction false} TakeUntilIs(log: seq<Commit>, stop: Commit, k: nat)
    requires k <= |log| && stop !in log[..k] && (k < |log| ==> log[k] == stop)
    ensures TakeUntil(log, stop) == log[..k]
    decreases k
  {
    if k > 0 {
      assert log[..k][0] in log[..k];
      assert log[..k] == [log[0]] + log[1..][..k - 1];
      TakeUntilIs(log[1..], stop, k - 1);
    }
  }

  function Reverse<T>(s: seq<T>): (r: seq<T>)
    ensures |r| == |s|
    ensures forall i :: 0 <= i < |s| ==> r[i] == s[|s| - 1 - i]
  {
    seq(|s|, i requires 0 <= i < |s| => s[|s| - 1 - i])
  }

  /** The commits a merge of `head` into `base` creates, the new tip last, or why it fails. */
  function Plan(base: Commit, head: Commit, strategy: string, message: string, sig: Signature,
                bases: seq<Commit>, log: seq<Commit>): Result<seq<Commit>, MergeError>
  {
    if strategy == "merge" then
      if IsAncestor(base, head) then Ok([MergeCommit(base, head, message, sig)]) else Err(NotFastForward)
    else if strategy == "squash" then
      Ok([SquashCommit(base, head, message, sig)])
    else if strategy == "rebase" then
      if bases == [] then Err(NoCommonAncestor)
      else if !IsAncestor(base, head) then Err(Diverged)
      else if TakeUntil(log, bases[0]) == [] then Err(NothingToRebase)
      else Ok(Replay(base, Reverse(TakeUntil(log, bases[0])), sig))
    else Err(UnknownStrategy)
  }

  function Last<T>(s: seq<T>): T
    requires s != []
  {
    s[|s| - 1]
  }

  /** Storing the new commits and moving the branch to the last of them. */
  function Advance(r: Repo, branch: string, created: seq<Commit>): Repo
    requires created != []
  {
    r.(objects := r.objects + (set c | c in created), heads := r.heads[branch := Last(created)])
  }

  function Resolve(r: Repo, name: string): Option<Commit> {
    if name in r.heads then Some(r.heads[name])
    else if name in r.tags then Some(r.tags[name])
    else None
  }

  // ---------------------------------------------------------------- results about every strategy

  lemma ReplayAt(tip: Commit, cs: seq<Commit>, sig: Signature, i: nat)
    requires i < |cs|
    ensures Replay(tip, cs, sig)[i]
         == Rewrite(cs[i], if i == 0 then tip else Replay(tip, cs, sig)[i - 1], sig)
    decreases i
  {
    if i > 0 { ReplayAt(Rewrite(cs[0], tip, sig), cs[1..], sig, i - 1); }
  }

  /** `tip` is reached from `base` by adding single-parent commits only. */
  predicate LinearOver(base: Commit, tip: Commit)
    decreases tip
  {
    tip == base || (|tip.parents| == 1 && LinearOver(base, tip.parents[0]))
  }

  lemma {:induction false} LinearTrans(a: Commit, b: Commit, c: Commit)
    requires LinearOver(a, b) && LinearOver(b, c)
    ensures LinearOver(a, c)
    decreases c
  {
    if c != b { LinearTrans(a, b, c.parents[0]); }
  }

  lemma {:induction false} LinearIsAncestor(base: Commit, tip: Commit)
    requires LinearOver(base, tip)
    ensures IsAncestor(base, tip)
    decreases tip
  {
    if tip != base {
      LinearIsAncestor(base, tip.parents[0]);
      assert IsAncestor(base, tip.parents[0]);
    }
  }

  lemma {:induction false} ReplayLinear(tip: Commit, cs: seq<Commit>, sig: Signature, i: nat)
    requires i < |cs|
    ensures LinearOver(tip, Replay(tip, cs, sig)[i])
    decreases i
  {
    ReplayAt(tip, cs, sig, i);
    if i > 0 { ReplayLinear(tip, cs, sig, i - 1); }
  }

  /**
   * A successful merge, by any strategy and over any commit graph, ends in a commit with head's tree
   * and base among its ancestors. Squash and rebase only add single-parent commits.
   */
  lemma PlanSound(base: Commit, head: Commit, strategy: string, message: string, sig: Signature,
                  bases: seq<Commit>, log: seq<Commit>)
    requires IsMergeBases(bases, base, head) && IsLog(log, head)
    requires Plan(base, head, strategy, message, sig, bases, log).Ok?
    ensures var created := Plan(base, head, strategy, message, sig, bases, log).value;
            && created != []
            && Last(created).tree == head.tree
            && IsAncestor(base, Last(created))
            && (strategy != "merge" ==> LinearOver(base, Last(created)))
  {
    var created := Plan(base, head, strategy, message, sig, bases, log).value;
    if strategy == "rebase" {
      var cs := TakeUntil(log, bases[0]);
      assert cs[0] == log[0] == head;
      ReplayAt(base, Reverse(cs), sig, |cs| - 1);
      ReplayLinear(base, Reverse(cs), sig, |cs| - 1);
      LinearIsAncestor(base, Last(created));
    } else {
      assert base in created[0].parents;
      ParentIsAncestor(base, created[0]);
      if strategy == "squash" { assert LinearOver(base, created[0].parents[0]); }
    }
  }

  /** The parents of created commits are base, head, or created before. */
  lemma {:induction false} PlanParents(base: Commit, head: Commit, strategy: string, message: string, sig: Signature,
                                       bases: seq<Commit>, log: seq<Commit>, i: nat, p: Commit)
    requires Plan(base, head, strategy, message, sig, bases, log).Ok?
    requires var created := Plan(base, head, strategy, message, sig, bases, log).value;
             i < |created| && p in created[i].parents
    ensures var created := Plan(base, head, strategy, message, sig, bases, log).value;
            p == base || p == head || p in created[..i]
  {
    if strategy == "rebase" {
      ReplayAt(base, Reverse(TakeUntil(log, bases[0])), sig, i);
      var created := Plan(base, head, strategy, message, sig, bases, log).value;
      if i > 0 { assert p == created[..i][i - 1]; }
    }
  }

  /** Merging keeps the store closed under parents, keeps every object, and moves only the base branch. */
  lemma AdvanceOk(r: Repo, branch: string, base: Commit, head: Commit, strategy: string, message: string,
                  sig: Signature, bases: seq<Commit>, log: seq<Commit>)
    requires RepoOk(r) && base in r.objects && head in r.objects
    requires Plan(base, head, strategy, message, sig, bases, log).Ok?
    ensures var created := Plan(base, head, strategy, message, sig, bases, log).value;
            created != [] && RepoOk(Advance(r, branch, created))
    ensures var r' := Advance(r, branch, Plan(base, head, strategy, message, sig, bases, log).value);
            && r.objects <= r'.objects && r'.tags == r.tags && branch in r'.heads
            && forall b :: b != branch ==> (b in r'.heads <==> b in r.heads)
                                           && (b in r.heads ==> r'.heads[b] == r.heads[b])
  {
    var created := Plan(base, head, strategy, message, sig, bases, log).value;
    var r' := Advance(r, branch, created);
    forall c, p | c in r'.objects && p in c.parents ensures p in r'.objects {
      if c !in r.objects {
        var i :| 0 <= i < |created| && created[i] == c;
        PlanParents(base, head, strategy, message, sig, bases, log, i, p);
      }
    }
  }

  // ---------------------------------------------------------------- rebase of a linear history

  /** `cs` are single-parent commits, each on the one before it and the first on `base`. */
  ghost predicate IsChain(base: Commit, cs: seq<Commit>) {
    forall i :: 0 <= i < |cs| ==> cs[i].parents == [if i == 0 then base else cs[i - 1]]
  }

  lemma {:induction false} ChainAncestors(base: Commit, cs: seq<Commit>, n: nat, c: Commit)
    requires IsChain(base, cs) && n < |cs|
    ensures IsAncestor(c, cs[n]) <==> c in cs[..n + 1] || IsAncestor(c, base)
    decreases n
  {
    var below := if n == 0 then base else cs[n - 1];
    assert cs[n].parents == [below];
    assert cs[n].parents[0] == below;
    assert cs[..n + 1] == cs[..n] + [cs[n]];
    if n > 0 { ChainAncestors(base, cs, n - 1, c); }
  }

  lemma ChainAbove(base: Commit, cs: seq<Commit>, i: nat)
    requires IsChain(base, cs) && i < |cs|
    ensures IsAncestor(base, cs[i]) && cs[i] != base && !IsAncestor(cs[i], base)
    decreases i
  {
    var below := if i == 0 then base else cs[i - 1];
    assert cs[i].parents[0] == below;
    ParentIsAncestor(below, cs[i]);
    if i > 0 { ChainAbove(base, cs, i - 1); AncestorTrans(base, below, cs[i]); }
    AncestorWeight(base, below);
    AncestorWeight(below, cs[i]);
    if IsAncestor(cs[i], base) { AncestorWeight(cs[i], base); }
  }

  /** The chain is exactly base..head: what head reaches and base does not. */
  lemma ChainIsRange(base: Commit, cs: seq<Commit>, c: Commit)
    requires IsChain(base, cs) && cs != []
    ensures c in cs <==> IsAncestor(c, Last(cs)) && !IsAncestor(c, base)
  {
    ChainAncestors(base, cs, |cs| - 1, c);
    assert cs[..|cs|] == cs;
    if c in cs {
      var i :| 0 <= i < |cs| && cs[i] == c;
      ChainAbove(base, cs, i);
    }
  }

  /** Whatever order the log iterator uses, above base it walks the chain from head downwards. */
  lemma {:induction false} LogWalksChain(base: Commit, cs: seq<Commit>, log: seq<Commit>, i: nat)
    requires IsChain(base, cs) && cs != [] && IsLog(log, Last(cs)) && i <= |cs|
    ensures i < |log| && (forall k :: 0 <= k <= i && k < |cs| ==> log[k] == cs[|cs| - 1 - k])
    ensures i == |cs| ==> log[i] == base
    decreases i
  {
    if i > 0 {
      LogWalksChain(base, cs, log, i - 1);
      var next := if i == |cs| then base else cs[|cs| - 1 - i];
      assert cs[|cs| - i].parents == [next];
      if |log| == i {
        assert next in log by {
          ChainAncestors(base, cs, |cs| - 1, next);
          assert cs[..|cs|] == cs;
          assert IsAncestor(next, Last(cs));
        }
        var k :| 0 <= k < i && log[k] == next;
        ChainBelow(base, cs, |cs| - 1 - k, next);
        assert false;
      }
      assert ParentOfEarlier(log, i);
      var j :| 0 <= j < i && log[i] in log[j].parents;
      assert log[j] == cs[|cs| - 1 - j];
      assert log[j].parents == [if j == |cs| - 1 then base else cs[|cs| - 2 - j]];
      if j < i - 1 { assert log[i] == log[j + 1]; }
    }
  }

  /** An element of the chain is not below any lower element. */
  lemma ChainBelow(base: Commit, cs: seq<Commit>, hi: nat, low: Commit)
    requires IsChain(base, cs) && hi < |cs|
    requires low == base || (exists l :: 0 <= l < hi && cs[l] == low)
    ensures cs[hi] != low
    decreases hi
  {
    ChainAbove(base, cs, hi);
    if low != base {
      var l :| 0 <= l < hi && cs[l] == low;
      ChainClimb(base, cs, l, hi);
    }
  }

  lemma {:induction false} ChainClimb(base: Commit, cs: seq<Commit>, l: nat, hi: nat)
    requires IsChain(base, cs) && l < hi < |cs|
    ensures Weight(cs[l]) < Weight(cs[hi])
    decreases hi
  {
    assert cs[hi].parents == [cs[hi - 1]];
    ParentWeight(cs[hi].parents, 0);
    if l < hi - 1 { ChainClimb(base, cs, l, hi - 1); }
  }

  /**
   * Rebasing a single-parent history above base succeeds and replays exactly that history: a chain on
   * the old base tip with the trees, authors and messages of base..head, in order.
   */
  lemma RebaseReplaysRange(base: Commit, cs: seq<Commit>, message: string, sig: Signature,
                           bases: seq<Commit>, log: seq<Commit>)
    requires IsChain(base, cs) && cs != []
    requires IsMergeBases(bases, base, Last(cs)) && IsLog(log, Last(cs))
    ensures forall c :: c in cs <==> IsAncestor(c, Last(cs)) && !IsAncestor(c, base)
    ensures var r := Plan(base, Last(cs), "rebase", message, sig, bases, log);
            && r.Ok? && |r.value| == |cs| && IsChain(base, r.value)
            && forall i :: 0 <= i < |cs| ==>
                 && r.value[i].tree == cs[i].tree && r.value[i].author == cs[i].author
                 && r.value[i].message == cs[i].message && r.value[i].committer == sig
  {
    forall c ensures c in cs <==> IsAncestor(c, Last(cs)) && !IsAncestor(c, base) { ChainIsRange(base, cs, c); }
    ChainAbove(base, cs, |cs| - 1);
    MergeBaseOfAncestor(bases, base, Last(cs));
    assert bases[0] in bases;
    LogWalksChain(base, cs, log, |cs|);
    var up := TakeUntil(log, base);
    forall k | 0 <= k < |cs| ensures log[k] != base { ChainAbove(base, cs, |cs| - 1 - k); }
    TakeUntilIs(log, base, |cs|);
    assert Reverse(up) == cs;
    assert Plan(base, Last(cs), "rebase", message, sig, bases, log) == Ok(Replay(base, cs, sig));
    ReplayIsChain(base, cs, sig);
  }

  lemma ReplayIsChain(base: Commit, cs: seq<Commit>, sig: Signature)
    ensures |Replay(base, cs, sig)| == |cs| && IsChain(base, Replay(base, cs, sig))
    ensures forall i :: 0 <= i < |cs| ==>
              var r := Replay(base, cs, sig)[i];
              r.tree == cs[i].tree && r.author == cs[i].author && r.message == cs[i].message && r.committer == sig
  {
    forall i | 0 <= i < |cs|
      ensures Replay(base, cs, sig)[i] == Rewrite(cs[i], if i == 0 then base else Replay(base, cs, sig)[i - 1], sig)
    {
      ReplayAt(base, cs, sig, i);
    }
    var r := Replay(base, cs, sig);
    forall i | 0 <= i < |cs|
      ensures r[i].parents == [if i == 0 then base else r[i - 1]]
      ensures r[i].tree == cs[i].tree && r[i].author == cs[i].author
      ensures r[i].message == cs[i].message && r[i].committer == sig
    {
      assert r[i] == Rewrite(cs[i], if i == 0 then base else r[i - 1], sig);
    }
  }

  /** What the new tip has in its history: base's, the created commits, and after a merge commit head's. */
  lemma PlanAncestors(base: Commit, head: Commit, strategy: string, message: string, sig: Signature,
                      bases: seq<Commit>, log: seq<Commit>, c: Commit)
    requires Plan(base, head, strategy, message, sig, bases, log).Ok?
    ensures var created := Plan(base, head, strategy, message, sig, bases, log).value;
            && created != []
            && (IsAncestor(c, Last(created))
                <==> IsAncestor(c, base) || c in created || (strategy == "merge" && IsAncestor(c, head)))
  {
    var created := Plan(base, head, strategy, message, sig, bases, log).value;
    if strategy == "rebase" {
      var cs := Reverse(TakeUntil(log, bases[0]));
      ReplayIsChain(base, cs, sig);
      ChainAncestors(base, created, |created| - 1, c);
      assert created[..|created|] == created;
    } else if strategy == "squash" {
      assert created == [SquashCommit(base, head, message, sig)];
      assert created[0].parents == [base];
      OneParent(c, created[0], base);
    } else {
      assert created == [MergeCommit(base, head, message, sig)];
      assert created[0].parents == [base, head];
      TwoParents(c, created[0], base, head);
    }
  }

  /** What a rebase adds to the history: single-parent commits committed by the merger, each on the one before. */
  lemma RebaseCommits(base: Commit, head: Commit, message: string, sig: Signature, bases: seq<Commit>, log: seq<Commit>)
    requires Plan(base, head, "rebase", message, sig, bases, log).Ok?
    ensures var created := Plan(base, head, "rebase", message, sig, bases, log).value;
            && created != [] && IsChain(base, created)
            && (forall i :: 0 <= i < |created| ==> created[i].committer == sig)
            && forall c :: IsAncestor(c, Last(created)) && !IsAncestor(c, base) ==> c in created && c.committer == sig
  {
    var created := Plan(base, head, "rebase", message, sig, bases, log).value;
    ReplayIsChain(base, Reverse(TakeUntil(log, bases[0])), sig);
    forall c | IsAncestor(c, Last(created)) && !IsAncestor(c, base) ensures c in created && c.committer == sig {
      PlanAncestors(base, head, "rebase", message, sig, bases, log, c);
      var i :| 0 <= i < |created| && created[i] == c;
    }
  }

  /** Rebase goes through exactly when head is strictly ahead of base; otherwise it names the reason. */
  lemma RebaseOutcome(base: Commit, head: Commit, message: string, sig: Signature, bases: seq<Commit>, log: seq<Commit>)
    requires IsMergeBases(bases, base, head) && IsLog(log, head)
    ensures var r := Plan(base, head, "rebase", message, sig, bases, log);
            && (r.Ok? <==> IsAncestor(base, head) && base != head)
            && (r == Err(NoCommonAncestor) <==> bases == [])
            && (r == Err(Diverged) <==> bases != [] && !IsAncestor(base, head))
            && (r == Err(NothingToRebase) <==> base == head)
  {
    if IsAncestor(base, head) {
      MergeBaseOfAncestor(bases, base, head);
      assert bases[0] in bases;
    }
  }

  lemma OneParent(a: Commit, c: Commit, p: Commit)
    requires c.parents == [p]
    ensures IsAncestor(a, c) <==> a == c || IsAncestor(a, p)
  {
    assert c.parents[0] == p;
  }

  lemma TwoParents(a: Commit, c: Commit, p: Commit, q: Commit)
    requires c.parents == [p, q]
    ensures IsAncestor(a, c) <==> a == c || IsAncestor(a, p) || IsAncestor(a, q)
  {
    assert c.parents[0] == p && c.parents[1] == q;
  }

  const EX_SIG := Signature("dev", "dev@example.org", 0)
  const EX_ROOT := Commit(EX_SIG, EX_SIG, "root", "t0", [])
  const EX_BASE := Commit(EX_SIG, EX_SIG, "base", "t1", [EX_ROOT])
  const EX_SIDE := Commit(EX_SIG, EX_SIG, "side", "t2", [EX_ROOT])
  const EX_SIDE_FIRST := Commit(EX_SIG, EX_SIG, "head", "t3", [EX_SIDE, EX_BASE])
  const EX_BASE_FIRST := Commit(EX_SIG, EX_SIG, "head", "t3", [EX_BASE, EX_SIDE])

  /**
   * Without the single-parent condition the replay is not base..head: walking the other parent's side
   * first, depth first, the collect loop takes the root, which base already contains, before it meets base.
   */
  lemma RebaseReplaysOldCommit()
    ensures var log := [EX_SIDE_FIRST, EX_SIDE, EX_ROOT, EX_BASE];
            && IsMergeBases([EX_BASE], EX_BASE, EX_SIDE_FIRST) && IsLog(log, EX_SIDE_FIRST)
            && Plan(EX_BASE, EX_SIDE_FIRST, "rebase", "", EX_SIG, [EX_BASE], log).Ok?
            && EX_ROOT in TakeUntil(log, EX_BASE) && IsAncestor(EX_ROOT, EX_BASE)
  {
    var log := [EX_SIDE_FIRST, EX_SIDE, EX_ROOT, EX_BASE];
    SideFirstLog(log);
    ExampleAncestors(EX_SIDE_FIRST);
    OnlyMergeBase(EX_BASE, EX_SIDE_FIRST);
    assert log[..3] == [EX_SIDE_FIRST, EX_SIDE, EX_ROOT];
    TakeUntilIs(log, EX_BASE, 3);
    ParentIsAncestor(EX_ROOT, EX_BASE);
  }

  lemma SideFirstLog(log: seq<Commit>)
    requires log == [EX_SIDE_FIRST, EX_SIDE, EX_ROOT, EX_BASE]
    ensures IsLog(log, EX_SIDE_FIRST)
  {
    ExampleAncestors(EX_SIDE_FIRST);
    assert EX_SIDE in log[0].parents && EX_ROOT in log[1].parents && EX_BASE in log[0].parents;
    assert ParentOfEarlier(log, 1) && ParentOfEarlier(log, 2) && ParentOfEarlier(log, 3);
  }

  /** With base as the first parent the loop stops at once and the other side's commit is never replayed. */
  lemma RebaseSkipsNewCommit()
    ensures var log := [EX_BASE_FIRST, EX_BASE, EX_ROOT, EX_SIDE];
            && IsMergeBases([EX_BASE], EX_BASE, EX_BASE_FIRST) && IsLog(log, EX_BASE_FIRST)
            && Plan(EX_BASE, EX_BASE_FIRST, "rebase", "", EX_SIG, [EX_BASE], log).Ok?
            && EX_SIDE !in TakeUntil(log, EX_BASE)
            && IsAncestor(EX_SIDE, EX_BASE_FIRST) && !IsAncestor(EX_SIDE, EX_BASE)
  {
    var log := [EX_BASE_FIRST, EX_BASE, EX_ROOT, EX_SIDE];
    BaseFirstLog(log);
    ExampleAncestors(EX_BASE_FIRST);
    OnlyMergeBase(EX_BASE, EX_BASE_FIRST);
    assert log[..1] == [EX_BASE_FIRST];
    TakeUntilIs(log, EX_BASE, 1);
    ParentIsAncestor(EX_SIDE, EX_BASE_FIRST);
  }

  lemma BaseFirstLog(log: seq<Commit>)
    requires log == [EX_BASE_FIRST, EX_BASE, EX_ROOT, EX_SIDE]
    ensures IsLog(log, EX_BASE_FIRST)
  {
    ExampleAncestors(EX_BASE_FIRST);
    assert EX_BASE in log[0].parents && EX_ROOT in log[1].parents && EX_SIDE in log[0].parents;
    assert ParentOfEarlier(log, 1) && ParentOfEarlier(log, 2) && ParentOfEarlier(log, 3);
  }

  lemma ExampleAncestors(head: Commit)
    requires head == EX_SIDE_FIRST || head == EX_BASE_FIRST
    ensures IsAncestor(EX_BASE, head)
    ensures forall c :: IsAncestor(c, head) ==> c in [head, EX_BASE, EX_SIDE, EX_ROOT]
    ensures !IsAncestor(EX_SIDE, EX_BASE)
  {
    ParentIsAncestor(EX_BASE, head);
    forall c | IsAncestor(c, head) && c != head ensures c in [head, EX_BASE, EX_SIDE, EX_ROOT] {
      var i :| 0 <= i < |head.parents| && IsAncestor(c, head.parents[i]);
      assert head.parents[i] == EX_BASE || head.parents[i] == EX_SIDE;
      if c != EX_BASE && c != EX_SIDE {
        assert head.parents[i].parents == [EX_ROOT];
        assert IsAncestor(c, EX_ROOT);
      }
    }
  }

  lemma OnlyMergeBase(base: Commit, head: Commit)
    requires IsAncestor(base, head)
    ensures IsMergeBases([base], base, head)
  {
    forall c ensures c == base <==> BestCommon(c, base, head) {
      if BestCommon(c, base, head) { assert IsAncestor(base, base); }
      forall d | IsAncestor(d, base) && IsAncestor(base, d) ensures d == base { AncestorAntisym(d, base); }
    }
  }

  // ---------------------------------------------------------------- retries and overlapping merges

  /**
   * A second merge of the unmoved head after a first one succeeded (the database having lost the
   * result). Squash goes through again; merge goes through exactly when the first tip is already part
   * of head's history, rebase when moreover head has something on top of it; after a first "merge"
   * neither can. Whatever goes through leaves head's tree on the branch.
   */
  lemma {:induction false} RetryOutcome(
    base: Commit, head: Commit,
    first: string, message: string, sig: Signature, bases: seq<Commit>, log: seq<Commit>,
    second: string, message2: string, sig2: Signature, bases2: seq<Commit>, log2: seq<Commit>)
    requires IsMergeBases(bases, base, head) && IsLog(log, head)
    requires Plan(base, head, first, message, sig, bases, log).Ok?
    requires var tip := Last(Plan(base, head, first, message, sig, bases, log).value);
             IsMergeBases(bases2, tip, head) && IsLog(log2, head)
    ensures var tip := Last(Plan(base, head, first, message, sig, bases, log).value);
            var retry := Plan(tip, head, second, message2, sig2, bases2, log2);
            && (second == "squash" ==> retry.Ok?)
            && (second == "merge" ==> (retry.Ok? <==> IsAncestor(tip, head)))
            && (second == "rebase" ==> (retry.Ok? <==> IsAncestor(tip, head) && tip != head))
            && (first == "merge" ==> !IsAncestor(tip, head))
            && (retry.Ok? ==> retry.value != [] && Last(retry.value).tree == head.tree)
  {
    var tip := Last(Plan(base, head, first, message, sig, bases, log).value);
    var retry := Plan(tip, head, second, message2, sig2, bases2, log2);
    if retry.Ok? { PlanSound(tip, head, second, message2, sig2, bases2, log2); }
    if first == "merge" {
      ParentIsAncestor(head, tip);
      if IsAncestor(tip, head) { AncestorAntisym(tip, head); }
    }
    if second == "rebase" && IsAncestor(tip, head) {
      MergeBaseOfAncestor(bases2, tip, head);
      assert bases2[0] in bases2;
    }
  }

  /**
   * Two merges into one branch that overlap: this one read the branch at `base`, and by the time it
   * writes, the other has put `current` there. `current` is not an ancestor of what this one writes,
   * so the other merge drops off the branch.
   */
  lemma {:induction false} StaleWriteLoses(r: Repo, base: Commit, head: Commit, strategy: string, message: string,
                                           sig: Signature, bases: seq<Commit>, log: seq<Commit>, current: Commit)
    requires RepoOk(r) && base in r.objects && head in r.objects
    requires Plan(base, head, strategy, message, sig, bases, log).Ok?
    requires var created := Plan(base, head, strategy, message, sig, bases, log).value;
             created != [] && current !in r.objects && current !in created
    ensures !IsAncestor(current, Last(Plan(base, head, strategy, message, sig, bases, log).value))
  {
    var created := Plan(base, head, strategy, message, sig, bases, log).value;
    StaleAt(r, base, head, strategy, message, sig, bases, log, current, |created| - 1);
  }

  lemma {:induction false} StaleAt(r: Repo, base: Commit, head: Commit, strategy: string, message: string,
                                   sig: Signature, bases: seq<Commit>, log: seq<Commit>, current: Commit, i: nat)
    requires RepoOk(r) && base in r.objects && head in r.objects && current !in r.objects
    requires Plan(base, head, strategy, message, sig, bases, log).Ok?
    requires var created := Plan(base, head, strategy, message, sig, bases, log).value;
             i < |created| && current !in created
    ensures !IsAncestor(current, Plan(base, head, strategy, message, sig, bases, log).value[i])
    decreases i
  {
    var created := Plan(base, head, strategy, message, sig, bases, log).value;
    if IsAncestor(current, created[i]) {
      assert created[i] in created;
      var k :| 0 <= k < |created[i].parents| && IsAncestor(current, created[i].parents[k]);
      var p := created[i].parents[k];
      PlanParents(base, head, strategy, message, sig, bases, log, i, p);
      if p in created[..i] {
        var j :| 0 <= j < i && created[j] == p;
        StaleAt(r, base, head, strategy, message, sig, bases, log, current, j);
      } else {
        AncestorStored(r, current, p);
      }
    }
  }

  // ---------------------------------------------------------------- the service

  /** The outcome of MergeBranches on a repository, given what go-git reports about the two commits. */
  function MergeResult(r: Repo, base: string, head: string, strategy: string, message: string, sig: Signature,
                       bases: seq<Commit>, log: seq<Commit>): (Repo, Result<(), MergeError>)
  {
    var b, h := Resolve(r, base), Resolve(r, head);
    if b.None? then (r, Err(BaseNotFound))
    else if h.None? then (r, Err(HeadNotFound))
    else match Plan(b.value, h.value, strategy, message, sig, bases, log)
         case Err(e) => (r, Err(e))
         case Ok(created) => if created == [] then (r, Ok(())) else (Advance(r, base, created), Ok(()))
  }

  /** What go-git reports about two resolved commits is correct. */
  ghost predicate Reported(r: Repo, base: string, head: string, bases: seq<Commit>, log: seq<Commit>) {
    var b, h := Resolve(r, base), Resolve(r, head);
    b.Some? && h.Some? ==> IsMergeBases(bases, b.value, h.value) && IsLog(log, h.value)
  }

  class GitService {
    var objects: set<Commit>
    var heads: map<string, Commit>
    var tags: map<string, Commit>

    ghost function Snapshot(): Repo
      reads this
    {
      Repo(objects, heads, tags)
    }

    ghost predicate Valid()
      reads this
    {
      RepoOk(Snapshot())
    }

    method ResolveRef(name: string) returns (c: Option<Commit>)
      ensures c == Resolve(Snapshot(), name)
      ensures name in heads ==> c == Some(heads[name])
      ensures name !in heads && name in tags ==> c == Some(tags[name])
      ensures c.None? <==> name !in heads && name !in tags
      ensures Valid() && c.Some? ==> c.value in objects
    {
      if name in heads {
        c := Some(heads[name]);
      } else if name in tags {
        c := Some(tags[name]);
      } else {
        c := None;
      }
    }

    /** SetEncodedObject for each new commit, then SetReference. */
    method StoreAndMove(branch: string, created: seq<Commit>)
      requires created != []
      modifies this
      ensures Snapshot() == Advance(old(Snapshot()), branch, created)
      ensures heads == old(heads)[branch := created[|created| - 1]] && tags == old(tags)
      ensures forall c :: c in objects <==> c in old(objects) || c in created
    {
      for i := 0 to |created|
        modifies this
        invariant Snapshot() == old(Snapshot()).(objects := old(objects) + set c | c in created[..i])
      {
        assert created[..i + 1] == created[..i] + [created[i]];
        objects := objects + {created[i]};
      }
      assert created[..|created|] == created;
      heads := heads[branch := created[|created| - 1]];
    }

    method MergeBranches(base: string, head: string, strategy: string, message: string, sig: Signature,
                         bases: seq<Commit>, log: seq<Commit>) returns (r: Result<(), MergeError>)
      requires Valid() && Reported(Snapshot(), base, head, bases, log)
      modifies this
      ensures Valid()
      ensures (Snapshot(), r) == MergeResult(old(Snapshot()), base, head, strategy, message, sig, bases, log)
      ensures r.Err? ==> Snapshot() == old(Snapshot())
      ensures r.Ok? ==>
        && Resolve(old(Snapshot()), base).Some? && Resolve(old(Snapshot()), head).Some? && base in heads
        && heads == old(heads)[base := heads[base]] && tags == old(tags) && old(objects) <= objects
        && heads[base].tree == Resolve(old(Snapshot()), head).value.tree
        && IsAncestor(Resolve(old(Snapshot()), base).value, heads[base])
      ensures r == Err(BaseNotFound) <==> Resolve(old(Snapshot()), base).None?
      ensures r == Err(HeadNotFound) <==>
                Resolve(old(Snapshot()), base).Some? && Resolve(old(Snapshot()), head).None?
      ensures r == Err(UnknownStrategy) ==> strategy != "merge" && strategy != "squash" && strategy != "rebase"
      ensures Resolve(old(Snapshot()), base).Some? && Resolve(old(Snapshot()), head).Some? ==>
        var b, h := Resolve(old(Snapshot()), base).value, Resolve(old(Snapshot()), head).value;
        && (strategy == "merge" ==>
              if IsAncestor(b, h) then
                && r == Ok(()) && base in heads && heads[base] == Commit(sig, sig, message, h.tree, [b, h])
                && objects == old(objects) + {heads[base]}
              else r == Err(NotFastForward))
        && (strategy == "squash" ==>
              && r == Ok(()) && base in heads && heads[base] == Commit(sig, sig, message, h.tree, [b])
              && objects == old(objects) + {heads[base]})
        && (strategy == "rebase" ==>
              if !IsAncestor(b, h) then r == Err(if bases == [] then NoCommonAncestor else Diverged)
              else if b == h then r == Err(NothingToRebase)
              else
                && r == Ok(()) && base in heads && LinearOver(b, heads[base])
                && forall c :: IsAncestor(c, heads[base]) && !IsAncestor(c, b) ==> c in objects && c.committer == sig)
        && (strategy != "merge" && strategy != "squash" && strategy != "rebase" ==> r == Err(UnknownStrategy))
    {
      ghost var before := Snapshot();
      var b := ResolveRef(base);
      if b.None? { return Err(BaseNotFound); }
      var h := ResolveRef(head);
      if h.None? { return Err(HeadNotFound); }
      var plan;
      match strategy {
        case "merge" => plan := DoMergeCommit(b.value, h.value, message, sig);
        case "squash" => plan := DoSquashMerge(b.value, h.value, message, sig);
        case "rebase" => plan := DoRebaseMerge(b.value, h.value, sig, bases, log);
        case _ => return Err(UnknownStrategy);
      }
      assert plan == Plan(b.value, h.value, strategy, message, sig, bases, log);
      RebaseOutcome(b.value, h.value, message, sig, bases, log);
      if plan.Err? { return Err(plan.error); }
      PlanSound(b.value, h.value, strategy, message, sig, bases, log);
      AdvanceOk(before, base, b.value, h.value, strategy, message, sig, bases, log);
      if strategy == "rebase" { RebaseCommits(b.value, h.value, message, sig, bases, log); }
      StoreAndMove(base, plan.value);
      r := Ok(());
    }

    method DoMergeCommit(base: Commit, head: Commit, message: string, sig: Signature)
      returns (r: Result<seq<Commit>, MergeError>)
      ensures forall bases, log :: r == Plan(base, head, "merge", message, sig, bases, log)
      ensures r == if IsAncestor(base, head) then Ok([Commit(sig, sig, message, head.tree, [base, head])])
                   else Err(NotFastForward)
    {
      if IsAncestor(base, head) {
        r := Ok([Commit(sig, sig, message, head.tree, [base, head])]);
      } else {
        r := Err(NotFastForward);
      }
    }

    method DoSquashMerge(base: Commit, head: Commit, message: string, sig: Signature)
      returns (r: Result<seq<Commit>, MergeError>)
      ensures forall bases, log :: r == Plan(base, head, "squash", message, sig, bases, log)
      ensures r == Ok([Commit(sig, sig, message, head.tree, [base])])
    {
      r := Ok([Commit(sig, sig, message, head.tree, [base])]);
    }

    /** Collect head's log down to the merge base, reverse it in place, replay it on base. */
    method DoRebaseMerge(base: Commit, head: Commit, sig: Signature, bases: seq<Commit>, log: seq<Commit>)
      returns (r: Result<seq<Commit>, MergeError>)
      ensures forall message :: r == Plan(base, head, "rebase", message, sig, bases, log)
    {
      if |bases| == 0 { return Err(NoCommonAncestor); }
      if !IsAncestor(base, head) { return Err(Diverged); }
      var collected := Collect(log, bases[0]);
      if |collected| == 0 { return Err(NothingToRebase); }
      var commits := new Commit[|collected|](i requires 0 <= i < |collected| => collected[i]);
      assert commits[..] == collected;
      ReverseInPlace(commits);
      var created := ReplayOnto(base, commits, sig);
      r := Ok(created);
    }

    method Collect(log: seq<Commit>, stop: Commit) returns (collected: seq<Commit>)
      ensures collected == TakeUntil(log, stop)
    {
      collected := [];
      for k := 0 to |log|
        invariant collected == log[..k] && stop !in collected
      {
        if log[k] == stop {
          TakeUntilIs(log, stop, k);
          return;
        }
        collected := collected + [log[k]];
      }
      TakeUntilIs(log, stop, |log|);
    }

    method ReplayOnto(base: Commit, commits: array<Commit>, sig: Signature) returns (created: seq<Commit>)
      ensures created == Replay(base, commits[..], sig)
      ensures |created| == commits.Length
      ensures forall i :: 0 <= i < |created| ==>
                created[i] == Commit(commits[i].author, sig, commits[i].message, commits[i].tree,
                                     [if i == 0 then base else created[i - 1]])
    {
      var currentTip := base;
      created := [];
      assert commits[0..] == commits[..];
      for k := 0 to commits.Length
        invariant Replay(base, commits[..], sig) == created + Replay(currentTip, commits[k..], sig)
      {
        assert commits[k..][1..] == commits[k + 1..];
        currentTip := Commit(commits[k].author, sig, commits[k].message, commits[k].tree, [currentTip]);
        created := created + [currentTip];
      }
      assert commits[commits.Length..] == [];
      ReplayIsChain(base, commits[..], sig);
    }

    method ReverseInPlace(a: array<Commit>)
      modifies a
      ensures a[..] == Reverse(old(a[..]))
    {
      var i, j := 0, a.Length - 1;
      while i < j
        invariant 0 <= i <= a.Length && j == a.Length - 1 - i && i <= j + 1
        invariant forall k :: 0 <= k < a.Length ==>
                    a[k] == old(a[..])[if i <= k <= j then k else a.Length - 1 - k]
      {
        a[i], a[j] := a[j], a[i];
        i, j := i + 1, j - 1;
      }
    }
  }
}
