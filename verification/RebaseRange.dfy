/**
 * When rebase (internal/git/service.go, doRebaseMerge) replays exactly base..head, if nothing is assumed about the
 * order of the log: if and only if the history above base never branches. RebasePreOrder.dfy has the condition for
 * the order go-git uses by default.
 */
module RebaseRange {
  import opened Common
  import opened Git

  /** base..head: what head reaches and base does not. */
  predicate InRange(c: Commit, base: Commit, head: Commit) {
    IsAncestor(c, head) && !IsAncestor(c, base)
  }

  /** The collect loop, given this log, takes exactly base..head. */
  ghost predicate TakesRange(log: seq<Commit>, base: Commit, head: Commit) {
    forall c :: c in TakeUntil(log, base) <==> InRange(c, base, head)
  }

  /** Every parent link of `c` leads to `p`, and there is one. */
  predicate OnlyParent(c: Commit, p: Commit) {
    c.parents != [] && forall k :: 0 <= k < |c.parents| ==> c.parents[k] == p
  }

  /** No commit above base is a merge or a root. */
  ghost predicate Unbranched(base: Commit, head: Commit) {
    forall c :: InRange(c, base, head) ==> c.parents != [] && OnlyParent(c, c.parents[0])
  }

  // ---------------------------------------------------------------- orders and their beginnings

  /** What an iteration of the log may have given so far. */
  ghost predicate IsPrefix(prefix: seq<Commit>, head: Commit) {
    && prefix != [] && prefix[0] == head && NoDup(prefix)
    && forall i :: 0 < i < |prefix| ==> ParentOfEarlier(prefix, i)
  }

  ghost predicate ReachesAll(prefix: seq<Commit>, head: Commit) {
    forall c :: IsAncestor(c, head) ==> c in prefix
  }

  function Ancestors(c: Commit): set<Commit>
    decreases c
  {
    {c} + set i, a | 0 <= i < |c.parents| && a in Ancestors(c.parents[i]) :: a
  }

  lemma {:induction false} AncestorsAre(c: Commit, a: Commit)
    ensures a in Ancestors(c) <==> IsAncestor(a, c)
    decreases c
  {
    forall i | 0 <= i < |c.parents| ensures a in Ancestors(c.parents[i]) <==> IsAncestor(a, c.parents[i]) {
      AncestorsAre(c.parents[i], a);
    }
  }

  lemma {:induction false} PrefixIsAncestors(prefix: seq<Commit>, head: Commit, i: nat)
    requires IsPrefix(prefix, head) && i < |prefix|
    ensures IsAncestor(prefix[i], head)
    decreases i
  {
    if i > 0 {
      assert ParentOfEarlier(prefix, i);
      var j :| 0 <= j < i && prefix[i] in prefix[j].parents;
      PrefixIsAncestors(prefix, head, j);
      ParentIsAncestor(prefix[i], prefix[j]);
      AncestorTrans(prefix[i], prefix[j], head);
    }
  }

  /** Below a commit already given, on the way to one not yet given, there is one that may come next. */
  lemma {:induction false} SomeNext(prefix: seq<Commit>, j: nat, c: Commit) returns (k: nat, next: Commit)
    requires j < |prefix| && IsAncestor(c, prefix[j]) && c !in prefix
    ensures k < |prefix| && next in prefix[k].parents && next !in prefix
    decreases prefix[j]
  {
    var x := prefix[j];
    var i :| 0 <= i < |x.parents| && IsAncestor(c, x.parents[i]);
    if x.parents[i] in prefix {
      var m :| 0 <= m < |prefix| && prefix[m] == x.parents[i];
      k, next := SomeNext(prefix, m, c);
    } else {
      k, next := j, x.parents[i];
    }
  }

  lemma PrefixSnoc(prefix: seq<Commit>, head: Commit, k: nat, next: Commit)
    requires IsPrefix(prefix, head) && k < |prefix| && next in prefix[k].parents && next !in prefix
    ensures IsPrefix(prefix + [next], head)
  {
    var longer := prefix + [next];
    forall i | 0 < i < |longer| ensures ParentOfEarlier(longer, i) {
      if i < |prefix| {
        assert ParentOfEarlier(prefix, i);
        var j :| 0 <= j < i && prefix[i] in prefix[j].parents;
        assert longer[i] in longer[j].parents;
      } else {
        assert longer[i] in longer[k].parents;
      }
    }
  }

  function Left(prefix: seq<Commit>, head: Commit): nat {
    |Ancestors(head) - set c | c in prefix|
  }

  lemma OneLess(prefix: seq<Commit>, head: Commit, next: Commit)
    requires IsAncestor(next, head) && next !in prefix
    ensures Left(prefix + [next], head) < Left(prefix, head)
  {
    AncestorsAre(head, next);
    var before, after := set c | c in prefix, set c | c in prefix + [next];
    assert after == before + {next};
    assert Ancestors(head) - after == Ancestors(head) - before - {next};
  }

  lemma OneMore(prefix: seq<Commit>, head: Commit) returns (next: Commit)
    requires IsPrefix(prefix, head) && !ReachesAll(prefix, head)
    ensures IsPrefix(prefix + [next], head) && Left(prefix + [next], head) < Left(prefix, head)
  {
    var c :| IsAncestor(c, head) && c !in prefix;
    var k;
    k, next := SomeNext(prefix, 0, c);
    PrefixIsAncestors(prefix, head, k);
    ParentIsAncestor(next, prefix[k]);
    AncestorTrans(next, prefix[k], head);
    PrefixSnoc(prefix, head, k, next);
    OneLess(prefix, head, next);
  }

  /** Any beginning can be continued to a full log. */
  lemma {:induction false} ContinueLog(prefix: seq<Commit>, head: Commit) returns (log: seq<Commit>)
    requires IsPrefix(prefix, head)
    ensures IsLog(log, head) && |prefix| <= |log| && log[..|prefix|] == prefix
    decreases Left(prefix, head)
  {
    if ReachesAll(prefix, head) {
      log := prefix;
    } else {
      var next := OneMore(prefix, head);
      log := ContinueLog(prefix + [next], head);
      assert log[..|prefix|] == log[..|prefix| + 1][..|prefix|];
    }
  }

  // ---------------------------------------------------------------- ways down

  ghost predicate IsPath(path: seq<Commit>, top: Commit, bottom: Commit) {
    && path != [] && path[0] == top && path[|path| - 1] == bottom
    && forall i :: 0 <= i < |path| - 1 ==> path[i + 1] in path[i].parents
  }

  lemma {:induction false} PathDown(top: Commit, bottom: Commit) returns (path: seq<Commit>)
    requires IsAncestor(bottom, top)
    ensures IsPath(path, top, bottom)
    decreases top
  {
    if bottom == top {
      path := [top];
    } else {
      var i :| 0 <= i < |top.parents| && IsAncestor(bottom, top.parents[i]);
      var rest := PathDown(top.parents[i], bottom);
      path := [top] + rest;
    }
  }

  lemma PathTail(path: seq<Commit>, top: Commit, bottom: Commit)
    requires IsPath(path, top, bottom) && |path| > 1
    ensures IsPath(path[1..], path[1], bottom) && path[1] in top.parents
  {
  }

  /** Everything on a path lies between its ends. */
  lemma {:induction false} OnPath(path: seq<Commit>, top: Commit, bottom: Commit, i: nat)
    requires IsPath(path, top, bottom) && i < |path|
    ensures IsAncestor(path[i], top) && IsAncestor(bottom, path[i])
    decreases |path|
  {
    if |path| > 1 {
      PathTail(path, top, bottom);
      OnPath(path[1..], path[1], bottom, if i > 0 then i - 1 else 0);
      ParentIsAncestor(path[1], top);
      if i > 0 {
        AncestorTrans(path[i], path[1], top);
      } else {
        AncestorTrans(bottom, path[1], top);
      }
    }
  }

  /** A path goes down strictly, so it is a possible beginning of the log. */
  lemma {:induction false} PathIsPrefix(path: seq<Commit>, top: Commit, bottom: Commit)
    requires IsPath(path, top, bottom)
    ensures IsPrefix(path, top)
    decreases |path|
  {
    forall i, j | 0 <= i < j < |path| ensures path[i] != path[j] { StrictlyDown(path, top, bottom, i, j); }
    forall i | 0 < i < |path| ensures ParentOfEarlier(path, i) {
      assert path[i - 1 + 1] in path[i - 1].parents;
    }
  }

  lemma {:induction false} StrictlyDown(path: seq<Commit>, top: Commit, bottom: Commit, i: nat, j: nat)
    requires IsPath(path, top, bottom) && i < j < |path|
    ensures Weight(path[j]) < Weight(path[i])
    decreases j
  {
    assert path[j - 1 + 1] in path[j - 1].parents;
    var k :| 0 <= k < |path[j - 1].parents| && path[j - 1].parents[k] == path[j];
    ParentWeight(path[j - 1].parents, k);
    if i < j - 1 { StrictlyDown(path, top, bottom, i, j - 1); }
  }

  // ---------------------------------------------------------------- a branch gives a bad order

  /** An order that comes to base while a commit of the range is still to come. */
  lemma BaseTooEarly(path: seq<Commit>, base: Commit, head: Commit, y: Commit) returns (log: seq<Commit>)
    requires IsPath(path, head, base) && y !in path && InRange(y, base, head)
    ensures IsLog(log, head) && !TakesRange(log, base, head)
  {
    PathIsPrefix(path, head, base);
    log := ContinueLog(path, head);
    var n := |path| - 1;
    forall i | 0 <= i < n ensures log[i] == path[i] { assert log[..|path|][i] == path[i]; }
    assert log[n] == base by { assert log[..|path|][n] == path[n]; }
    assert log[..n] == path[..n];
    TakeUntilIs(log, base, n);
    assert y !in TakeUntil(log, base);
  }

  /** An order that leaves the range before it comes to base. */
  lemma BaseTooLate(path: seq<Commit>, base: Commit, head: Commit, z: Commit) returns (log: seq<Commit>)
    requires IsPath(path, head, z) && base !in path && !InRange(z, base, head)
    ensures IsLog(log, head) && !TakesRange(log, base, head)
  {
    PathIsPrefix(path, head, z);
    log := ContinueLog(path, head);
    forall i | 0 <= i < |path| ensures log[i] != base { assert log[..|path|][i] == path[i]; }
    TakesAtLeast(log, base, |path|);
    var up := TakeUntil(log, base);
    assert up[|path| - 1] == log[|path| - 1] == log[..|path|][|path| - 1];
    assert z in up;
  }

  lemma {:induction false} TakesAtLeast(log: seq<Commit>, stop: Commit, n: nat)
    requires n <= |log| && forall i :: 0 <= i < n ==> log[i] != stop
    ensures |TakeUntil(log, stop)| >= n
    decreases n
  {
    if n > 0 { TakesAtLeast(log[1..], stop, n - 1); }
  }

  /** Extends a path by one parent. */
  lemma PathSnoc(path: seq<Commit>, top: Commit, c: Commit, p: Commit)
    requires IsPath(path, top, c) && p in c.parents
    ensures IsPath(path + [p], top, p)
  {
  }

  lemma PathJoin(a: seq<Commit>, top: Commit, c: Commit, b: seq<Commit>, bottom: Commit)
    requires IsPath(a, top, c) && b != [] && b[0] in c.parents && IsPath(b, b[0], bottom)
    ensures IsPath(a + b, top, bottom)
  {
    var all := a + b;
    forall i | 0 <= i < |all| - 1 ensures all[i + 1] in all[i].parents {
      if i < |a| - 1 {
        assert a[i + 1] in a[i].parents;
      } else if i >= |a| {
        assert b[i - |a| + 1] in b[i - |a|].parents;
      }
    }
  }

  /** On the way down to a commit of the range there is only the range. */
  lemma PathInRange(path: seq<Commit>, base: Commit, head: Commit, c: Commit)
    requires IsPath(path, head, c) && InRange(c, base, head)
    ensures forall i :: 0 <= i < |path| ==> InRange(path[i], base, head)
    ensures base !in path
  {
    forall i | 0 <= i < |path| ensures InRange(path[i], base, head) {
      OnPath(path, head, c, i);
      if IsAncestor(path[i], base) { AncestorTrans(c, path[i], base); }
    }
    assert IsAncestor(base, base);
  }

  /** A commit of the range that does not reach base: base comes first on a way that avoids it. */
  lemma DeadEnd(base: Commit, head: Commit, x: Commit) returns (log: seq<Commit>)
    requires IsAncestor(base, head) && InRange(x, base, head) && !IsAncestor(base, x)
    ensures IsLog(log, head) && !TakesRange(log, base, head)
  {
    var path := PathDown(head, base);
    forall i | 0 <= i < |path| ensures path[i] != x { OnPath(path, head, base, i); }
    log := BaseTooEarly(path, base, head, x);
  }

  /** A parent outside the range that is not base. */
  lemma SideDoor(base: Commit, head: Commit, c: Commit, z: Commit) returns (log: seq<Commit>)
    requires InRange(c, base, head) && z in c.parents && !InRange(z, base, head) && z != base
    ensures IsLog(log, head) && !TakesRange(log, base, head)
  {
    var path := PathDown(head, c);
    PathInRange(path, base, head, c);
    PathSnoc(path, head, c, z);
    log := BaseTooLate(path + [z], base, head, z);
  }

  /** Two parents, where base can be reached through `q` without passing `p`. */
  lemma Fork(base: Commit, head: Commit, c: Commit, p: Commit, q: Commit) returns (log: seq<Commit>)
    requires IsAncestor(base, head) && InRange(c, base, head) && p in c.parents && q in c.parents
    requires InRange(p, base, head) && !IsAncestor(p, q) && IsAncestor(base, q)
    ensures IsLog(log, head) && !TakesRange(log, base, head)
  {
    var above := PathDown(head, c);
    var below := PathDown(q, base);
    PathJoin(above, head, c, below, base);
    forall i | 0 <= i < |above| ensures above[i] != p {
      OnPath(above, head, c, i);
      ParentIsAncestor(p, c);
      if above[i] == p { AncestorAntisym(c, p); }
    }
    forall i | 0 <= i < |below| ensures below[i] != p { OnPath(below, q, base, i); }
    log := BaseTooEarly(above + below, base, head, p);
  }

  /** Wherever the history above base branches or begins, some order of the log makes the loop go wrong. */
  lemma BranchGoesWrong(base: Commit, head: Commit, c: Commit) returns (log: seq<Commit>)
    requires IsAncestor(base, head) && InRange(c, base, head)
    requires c.parents == [] || !OnlyParent(c, c.parents[0])
    ensures IsLog(log, head) && !TakesRange(log, base, head)
  {
    if !IsAncestor(base, c) {
      log := DeadEnd(base, head, c);
      return;
    }
    assert c.parents != [] by { assert base != c; }
    var p := c.parents[0];
    var k :| 0 <= k < |c.parents| && c.parents[k] != p;
    var q := c.parents[k];
    ParentIsAncestor(p, c);
    ParentIsAncestor(q, c);
    AncestorTrans(p, c, head);
    AncestorTrans(q, c, head);
    log := ForkGoesWrong(base, head, c, p, q);
  }

  lemma ForkGoesWrong(base: Commit, head: Commit, c: Commit, p: Commit, q: Commit) returns (log: seq<Commit>)
    requires IsAncestor(base, head) && InRange(c, base, head) && p in c.parents && q in c.parents && p != q
    requires IsAncestor(p, head) && IsAncestor(q, head)
    ensures IsLog(log, head) && !TakesRange(log, base, head)
  {
    assert IsAncestor(base, base);
    if !InRange(p, base, head) && p != base {
      log := SideDoor(base, head, c, p);
    } else if !InRange(q, base, head) && q != base {
      log := SideDoor(base, head, c, q);
    } else if InRange(p, base, head) && !IsAncestor(base, p) {
      log := DeadEnd(base, head, p);
    } else if InRange(q, base, head) && !IsAncestor(base, q) {
      log := DeadEnd(base, head, q);
    } else if p == base {
      log := Fork(base, head, c, q, p);
    } else if q == base {
      log := Fork(base, head, c, p, q);
    } else if !IsAncestor(p, q) {
      log := Fork(base, head, c, p, q);
    } else {
      if IsAncestor(q, p) { AncestorAntisym(p, q); }
      log := Fork(base, head, c, q, p);
    }
  }

  // ---------------------------------------------------------------- without branches every order is good

  /** Down to base the log follows the only parents. */
  lemma {:induction false} LogFollowsParents(log: seq<Commit>, base: Commit, head: Commit, n: nat, i: nat)
    requires IsLog(log, head) && IsAncestor(base, head) && Unbranched(base, head)
    requires n < |log| && log[n] == base && i <= n
    ensures IsAncestor(base, log[i])
    ensures i < n ==> InRange(log[i], base, head) && OnlyParent(log[i], log[i + 1])
    decreases i
  {
    if i > 0 {
      LogFollowsParents(log, base, head, n, i - 1);
      assert log[i - 1] != base;
      var k :| 0 <= k < |log[i - 1].parents| && IsAncestor(base, log[i - 1].parents[k]);
      assert log[i - 1].parents[k] == log[i];
    }
    if i < n {
      LogAncestor(log, head, i);
      if IsAncestor(log[i], base) { AncestorAntisym(log[i], base); }
      NextIsParent(log, base, head, n, i);
    }
  }

  lemma {:induction false} LogAncestor(log: seq<Commit>, head: Commit, i: nat)
    requires IsLog(log, head) && i < |log|
    ensures IsAncestor(log[i], head)
  {
    assert IsPrefix(log, head);
    PrefixIsAncestors(log, head, i);
  }

  /** What follows a commit of the range in the log is its parent: those before have given theirs. */
  lemma {:induction false} NextIsParent(log: seq<Commit>, base: Commit, head: Commit, n: nat, i: nat)
    requires IsLog(log, head) && IsAncestor(base, head) && Unbranched(base, head)
    requires n < |log| && log[n] == base && i < n && InRange(log[i], base, head)
    ensures OnlyParent(log[i], log[i + 1])
    decreases i, 0
  {
    forall j | 0 <= j < i ensures log[i + 1] !in log[j].parents {
      LogFollowsParents(log, base, head, n, j);
      assert log[j + 1] != log[i + 1];
    }
    assert ParentOfEarlier(log, i + 1);
    assert OnlyParent(log[i], log[i].parents[0]);
  }

  /** Nothing of the range is left once the log comes to base. */
  lemma {:induction false} NothingLeft(log: seq<Commit>, base: Commit, head: Commit, n: nat, i: nat, c: Commit)
    requires IsLog(log, head) && IsAncestor(base, head) && Unbranched(base, head)
    requires n < |log| && log[n] == base && i <= n && IsAncestor(c, head)
    ensures c in log[..i] || IsAncestor(c, log[i])
    decreases i
  {
    if i > 0 {
      NothingLeft(log, base, head, n, i - 1, c);
      LogFollowsParents(log, base, head, n, i - 1);
      assert log[..i] == log[..i - 1] + [log[i - 1]];
    }
  }

  lemma UnbranchedTakesRange(log: seq<Commit>, base: Commit, head: Commit)
    requires IsLog(log, head) && IsAncestor(base, head) && Unbranched(base, head)
    ensures TakesRange(log, base, head)
  {
    var n :| 0 <= n < |log| && log[n] == base;
    assert log[..n + 1][n] == base;
    TakeUntilIs(log, base, n);
    forall c ensures c in log[..n] <==> InRange(c, base, head) {
      if c in log[..n] {
        var i :| 0 <= i < n && log[..n][i] == c;
        LogFollowsParents(log, base, head, n, i);
      }
      if InRange(c, base, head) { NothingLeft(log, base, head, n, n, c); }
    }
  }

  /**
   * For any history in which head is ahead of base: whatever order the log iterator uses, the collect loop takes
   * exactly base..head, if and only if no commit above base is a merge or a root.
   */
  lemma RebaseTakesRangeIff(base: Commit, head: Commit)
    requires IsAncestor(base, head)
    ensures (forall log :: IsLog(log, head) ==> TakesRange(log, base, head)) <==> Unbranched(base, head)
  {
    if Unbranched(base, head) {
      forall log | IsLog(log, head) ensures TakesRange(log, base, head) { UnbranchedTakesRange(log, base, head); }
    } else {
      var c :| InRange(c, base, head) && !(c.parents != [] && OnlyParent(c, c.parents[0]));
      var log := BranchGoesWrong(base, head, c);
      assert IsLog(log, head) && !TakesRange(log, base, head);
    }
  }
}
