/**
 * When rebase (internal/git/service.go, doRebaseMerge) replays exactly base..head, for the order in which go-git's log
 * iterates by default: depth first, a commit before its parents, the parents in the order the commit names them,
 * and no commit twice.
 */
module RebasePreOrder {
  import opened Common
  import opened Git
  import opened RebaseRange

  // ---------------------------------------------------------------- the order

  /** What the iterator gives from `c` on when it has given `seen` already. */
  function Visit(c: Commit, seen: set<Commit>): seq<Commit>
    decreases c, 1
  {
    if c in seen then [] else [c] + VisitAll(c.parents, seen + {c})
  }

  function VisitAll(cs: seq<Commit>, seen: set<Commit>): seq<Commit>
    decreases cs, 0
  {
    if cs == [] then []
    else
      var first := Visit(cs[0], seen);
      first + VisitAll(cs[1..], seen + Elements(first))
  }

  function Elements(cs: seq<Commit>): set<Commit> { set c | c in cs }

  /** r.Log with default options. */
  function PreOrder(head: Commit): seq<Commit> { Visit(head, {}) }

  /** Of what `c` reaches, whatever was given already was given with everything it reaches. */
  ghost predicate Closed(seen: set<Commit>, c: Commit) {
    forall x, y :: x in seen && IsAncestor(x, c) && IsAncestor(y, x) ==> y in seen
  }

  ghost predicate AllClosed(seen: set<Commit>, cs: seq<Commit>) {
    forall i :: 0 <= i < |cs| ==> Closed(seen, cs[i])
  }

  lemma ClosedBelow(seen: set<Commit>, c: Commit)
    requires Closed(seen, c)
    ensures AllClosed(seen + {c}, c.parents)
  {
    forall i | 0 <= i < |c.parents| ensures Closed(seen + {c}, c.parents[i]) {
      var p := c.parents[i];
      ParentIsAncestor(p, c);
      if IsAncestor(c, p) { AncestorAntisym(c, p); }
      forall x, y | x in seen + {c} && IsAncestor(x, p) && IsAncestor(y, x) ensures y in seen + {c} {
        AncestorTrans(x, p, c);
      }
    }
  }

  /** Giving all that `c` reaches keeps the rest closed. */
  lemma ClosedAfter(seen: set<Commit>, c: Commit, cs: seq<Commit>, given: set<Commit>)
    requires Closed(seen, c) && AllClosed(seen, cs)
    requires forall x :: x in given <==> IsAncestor(x, c) && x !in seen
    ensures AllClosed(seen + given, cs)
  {
    forall i | 0 <= i < |cs| ensures Closed(seen + given, cs[i]) {
      forall x, y | x in seen + given && IsAncestor(x, cs[i]) && IsAncestor(y, x) ensures y in seen + given {
        if x in seen {
          assert Closed(seen, cs[i]);
        } else {
          AncestorTrans(y, x, c);
        }
      }
    }
  }

  predicate ReachedFrom(x: Commit, cs: seq<Commit>) {
    exists i :: 0 <= i < |cs| && IsAncestor(x, cs[i])
  }

  lemma ReachedCons(x: Commit, cs: seq<Commit>)
    requires cs != []
    ensures ReachedFrom(x, cs) <==> IsAncestor(x, cs[0]) || ReachedFrom(x, cs[1..])
  {
    if ReachedFrom(x, cs) && !IsAncestor(x, cs[0]) {
      var i :| 0 <= i < |cs| && IsAncestor(x, cs[i]);
      assert cs[1..][i - 1] == cs[i];
    }
    if ReachedFrom(x, cs[1..]) {
      var i :| 0 <= i < |cs[1..]| && IsAncestor(x, cs[1..][i]);
      assert cs[i + 1] == cs[1..][i];
    }
  }

  lemma ReachedIsAncestor(x: Commit, c: Commit)
    ensures IsAncestor(x, c) <==> x == c || ReachedFrom(x, c.parents)
  {
  }

  /** A visit gives exactly what is reached and was not given yet. */
  lemma {:induction false} VisitGives(c: Commit, seen: set<Commit>, x: Commit)
    requires Closed(seen, c)
    ensures x in Visit(c, seen) <==> IsAncestor(x, c) && x !in seen
    decreases c, 1
  {
    if c in seen {
      assert Closed(seen, c);
    } else {
      ClosedBelow(seen, c);
      VisitAllGives(c.parents, seen + {c}, x);
      ReachedIsAncestor(x, c);
    }
  }

  lemma {:induction false} VisitAllGives(cs: seq<Commit>, seen: set<Commit>, x: Commit)
    requires AllClosed(seen, cs)
    ensures x in VisitAll(cs, seen) <==> ReachedFrom(x, cs) && x !in seen
    decreases cs, 0
  {
    if cs != [] {
      GivenFirst(cs, seen);
      var first := Visit(cs[0], seen);
      VisitAllGives(cs[1..], seen + Elements(first), x);
      ReachedCons(x, cs);
    }
  }

  /** After the first of several: what it gave, and that the others stay closed. */
  lemma {:induction false} GivenFirst(cs: seq<Commit>, seen: set<Commit>)
    requires cs != [] && AllClosed(seen, cs)
    ensures forall x :: x in Elements(Visit(cs[0], seen)) <==> IsAncestor(x, cs[0]) && x !in seen
    ensures AllClosed(seen + Elements(Visit(cs[0], seen)), cs[1..])
    decreases cs[0], 2
  {
    assert Closed(seen, cs[0]);
    var first := Visit(cs[0], seen);
    forall x ensures x in Elements(first) <==> IsAncestor(x, cs[0]) && x !in seen { VisitGives(cs[0], seen, x); }
    assert AllClosed(seen, cs[1..]) by {
      assert forall i :: 0 <= i < |cs[1..]| ==> cs[1..][i] == cs[i + 1];
    }
    ClosedAfter(seen, cs[0], cs[1..], Elements(first));
  }

  lemma {:induction false} NotGivenAgain(c: Commit, seen: set<Commit>)
    ensures NoDup(Visit(c, seen)) && forall x :: x in Visit(c, seen) ==> x !in seen
    decreases c, 1
  {
    if c !in seen {
      NoneGivenAgain(c.parents, seen + {c});
      NoDupAppend([c], VisitAll(c.parents, seen + {c}));
    }
  }

  lemma {:induction false} NoneGivenAgain(cs: seq<Commit>, seen: set<Commit>)
    ensures NoDup(VisitAll(cs, seen)) && forall x :: x in VisitAll(cs, seen) ==> x !in seen
    decreases cs, 0
  {
    if cs != [] {
      var first := Visit(cs[0], seen);
      NotGivenAgain(cs[0], seen);
      NoneGivenAgain(cs[1..], seen + Elements(first));
      NoDupAppend(first, VisitAll(cs[1..], seen + Elements(first)));
    }
  }

  lemma NoDupAppend(a: seq<Commit>, b: seq<Commit>)
    requires NoDup(a) && NoDup(b) && forall x :: x in a ==> x !in b
    ensures NoDup(a + b)
  {
    forall i, j | 0 <= i < j < |a + b| ensures (a + b)[i] != (a + b)[j] {
      if i < |a| <= j { assert a[i] in a && b[j - |a|] in b; }
    }
  }

  /** Every commit given is one of `tops` or a parent of one given before. */
  ghost predicate Descends(log: seq<Commit>, tops: seq<Commit>) {
    forall i :: 0 <= i < |log| ==> log[i] in tops || ParentOfEarlier(log, i)
  }

  lemma DescendsAppend(a: seq<Commit>, b: seq<Commit>, tops: seq<Commit>)
    requires Descends(a, tops) && Descends(b, tops)
    ensures Descends(a + b, tops)
  {
    var log := a + b;
    forall i | 0 <= i < |log| ensures log[i] in tops || ParentOfEarlier(log, i) {
      if i < |a| {
        assert a[i] in tops || ParentOfEarlier(a, i);
        if ParentOfEarlier(a, i) {
          var j :| 0 <= j < i && a[i] in a[j].parents;
          assert log[i] in log[j].parents;
        }
      } else {
        var n := i - |a|;
        assert b[n] in tops || ParentOfEarlier(b, n);
        if ParentOfEarlier(b, n) {
          var j :| 0 <= j < n && b[n] in b[j].parents;
          assert log[i] in log[|a| + j].parents;
        }
      }
    }
  }

  lemma {:induction false} VisitDescends(c: Commit, seen: set<Commit>, tops: seq<Commit>)
    requires c in tops
    ensures Descends(Visit(c, seen), tops)
    decreases c, 1
  {
    if c !in seen {
      var rest := VisitAll(c.parents, seen + {c});
      VisitAllDescends(c.parents, seen + {c}, c.parents);
      forall i | 0 <= i < |[c] + rest| ensures ([c] + rest)[i] in tops || ParentOfEarlier([c] + rest, i) {
        if i > 0 { BelowFirst(c, rest, i); }
      }
    }
  }

  lemma BelowFirst(c: Commit, rest: seq<Commit>, i: nat)
    requires Descends(rest, c.parents) && 0 < i <= |rest|
    ensures ParentOfEarlier([c] + rest, i)
  {
    var log := [c] + rest;
    assert rest[i - 1] in c.parents || ParentOfEarlier(rest, i - 1);
    if rest[i - 1] in c.parents {
      assert log[i] in log[0].parents;
    } else {
      var j :| 0 <= j < i - 1 && rest[i - 1] in rest[j].parents;
      assert log[i] in log[j + 1].parents;
    }
  }

  lemma {:induction false} VisitAllDescends(cs: seq<Commit>, seen: set<Commit>, tops: seq<Commit>)
    requires forall c :: c in cs ==> c in tops
    ensures Descends(VisitAll(cs, seen), tops)
    decreases cs, 0
  {
    if cs != [] {
      var first := Visit(cs[0], seen);
      VisitDescends(cs[0], seen, tops);
      VisitAllDescends(cs[1..], seen + Elements(first), tops);
      DescendsAppend(first, VisitAll(cs[1..], seen + Elements(first)), tops);
    }
  }

  /** The default order is one of the orders the results about every log speak of. */
  lemma PreOrderIsLog(head: Commit)
    ensures IsLog(PreOrder(head), head)
  {
    var log := PreOrder(head);
    assert log[0] == head;
    NotGivenAgain(head, {});
    VisitDescends(head, {}, [head]);
    NothingSeen(head);
    forall c | IsAncestor(c, head) ensures c in log { VisitGives(head, {}, c); }
    forall i | 0 < i < |log| ensures ParentOfEarlier(log, i) {
      assert log[i] in [head] || ParentOfEarlier(log, i);
    }
  }

  // ---------------------------------------------------------------- what comes before base

  /** What the loop takes from `c` on before it comes to base, which `c` reaches. */
  function TakenFrom(c: Commit, base: Commit): set<Commit>
    decreases c, 1
  {
    if c == base then {} else {c} + TakenAll(c.parents, base)
  }

  /** Parents that do not reach base are taken whole; the first that does leads on; the later ones are not come to. */
  function TakenAll(cs: seq<Commit>, base: Commit): set<Commit>
    decreases cs, 0
  {
    if cs == [] then {}
    else if IsAncestor(base, cs[0]) then TakenFrom(cs[0], base)
    else Ancestors(cs[0]) + TakenAll(cs[1..], base)
  }

  lemma TakeUntilCons(c: Commit, rest: seq<Commit>, stop: Commit)
    ensures TakeUntil([c] + rest, stop) == if c == stop then [] else [c] + TakeUntil(rest, stop)
  {
    assert ([c] + rest)[1..] == rest;
  }

  lemma Regroup(c: Commit, a: seq<Commit>, b: seq<Commit>)
    ensures ([c] + a) + b == [c] + (a + b)
  {
  }

  lemma {:induction false} TakeUntilAppend(a: seq<Commit>, b: seq<Commit>, stop: Commit)
    ensures TakeUntil(a + b, stop) == if stop in a then TakeUntil(a, stop) else a + TakeUntil(b, stop)
    decreases |a|
  {
    if a == [] {
      assert a + b == b && a + TakeUntil(b, stop) == TakeUntil(b, stop);
    } else {
      var c, rest := a[0], a[1..];
      assert a == [c] + rest;
      Regroup(c, rest, b);
      TakeUntilCons(c, rest + b, stop);
      TakeUntilCons(c, rest, stop);
      TakeUntilAppend(rest, b, stop);
      Regroup(c, rest, TakeUntil(b, stop));
    }
  }

  lemma {:induction false} TakesFrom(c: Commit, seen: set<Commit>, base: Commit, x: Commit)
    requires Closed(seen, c) && IsAncestor(base, c) && base !in seen
    ensures x in TakeUntil(Visit(c, seen), base) <==> x in TakenFrom(c, base) && x !in seen
    decreases c, 1
  {
    assert c !in seen by { assert IsAncestor(c, c); }
    if c != base {
      ClosedBelow(seen, c);
      ReachedIsAncestor(base, c);
      TakesAll(c.parents, seen + {c}, base, x);
      var rest := VisitAll(c.parents, seen + {c});
      TakeUntilAppend([c], rest, base);
    }
  }

  lemma {:induction false} TakesAll(cs: seq<Commit>, seen: set<Commit>, base: Commit, x: Commit)
    requires AllClosed(seen, cs) && ReachedFrom(base, cs) && base !in seen
    ensures x in TakeUntil(VisitAll(cs, seen), base) <==> x in TakenAll(cs, base) && x !in seen
    decreases cs, 0
  {
    var first := Visit(cs[0], seen);
    var rest := VisitAll(cs[1..], seen + Elements(first));
    assert Closed(seen, cs[0]);
    GivenFirst(cs, seen);
    assert base in first <==> base in Elements(first);
    TakeUntilAppend(first, rest, base);
    ReachedCons(base, cs);
    if IsAncestor(base, cs[0]) {
      TakesFrom(cs[0], seen, base, x);
    } else {
      TakesAll(cs[1..], seen + Elements(first), base, x);
      AncestorsAre(cs[0], x);
      assert x in first <==> x in Elements(first);
    }
  }

  lemma NothingSeen(c: Commit)
    ensures Closed({}, c)
  {
  }

  // ---------------------------------------------------------------- the condition

  /** The first of `cs` with base in its history. */
  function FirstReaching(cs: seq<Commit>, base: Commit): (i: nat)
    ensures i <= |cs|
    ensures i < |cs| ==> IsAncestor(base, cs[i])
    ensures forall j :: 0 <= j < i ==> !IsAncestor(base, cs[j])
    decreases |cs|
  {
    if cs == [] || IsAncestor(base, cs[0]) then 0
    else
      var i := FirstReaching(cs[1..], base);
      assert forall j :: 0 < j < i + 1 ==> cs[j] == cs[1..][j - 1];
      i + 1
  }

  lemma SomeReaches(c: Commit, base: Commit)
    requires IsAncestor(base, c) && c != base
    ensures FirstReaching(c.parents, base) < |c.parents|
  {
    var i :| 0 <= i < |c.parents| && IsAncestor(base, c.parents[i]);
  }

  /** The way from `c` down to base, without base: always the first parent that has base in its history. */
  function Line(c: Commit, base: Commit): seq<Commit>
    requires IsAncestor(base, c)
    decreases c
  {
    if c == base then []
    else
      SomeReaches(c, base);
      [c] + Line(c.parents[FirstReaching(c.parents, base)], base)
  }

  /** `x` belongs to a parent named before the one the line goes on to. */
  predicate IsAside(x: Commit, c: Commit, base: Commit) {
    exists k :: 0 <= k < |c.parents| && k < FirstReaching(c.parents, base) && IsAncestor(x, c.parents[k])
  }

  /** Taken on the way down: on the line, or in the history of an earlier parent of a commit on it. */
  ghost predicate OnTheWay(x: Commit, line: seq<Commit>, base: Commit) {
    x in line || exists c :: c in line && IsAside(x, c, base)
  }

  /**
   * What must hold of the history above base. Of every commit on the line: a parent named earlier than the one the
   * line goes on to has no history in common with base; a parent named later is in base's history or on the way.
   */
  ghost predicate NothingAstray(base: Commit, head: Commit)
    requires IsAncestor(base, head)
  {
    var line := Line(head, base);
    forall c, k :: c in line && 0 <= k < |c.parents| ==> ParentOk(c, k, base, line)
  }

  ghost predicate ParentOk(c: Commit, k: nat, base: Commit, line: seq<Commit>)
    requires k < |c.parents|
  {
    && (k < FirstReaching(c.parents, base) ==> forall x :: IsAncestor(x, c.parents[k]) ==> !IsAncestor(x, base))
    && (k > FirstReaching(c.parents, base) ==> IsAncestor(c.parents[k], base) || OnTheWay(c.parents[k], line, base))
  }

  lemma {:induction false} TakenAllAre(cs: seq<Commit>, base: Commit, x: Commit)
    requires ReachedFrom(base, cs)
    ensures FirstReaching(cs, base) < |cs|
    ensures x in TakenAll(cs, base)
            <==> (exists k :: 0 <= k < FirstReaching(cs, base) && IsAncestor(x, cs[k]))
                 || x in TakenFrom(cs[FirstReaching(cs, base)], base)
    decreases |cs|
  {
    ReachedCons(base, cs);
    if !IsAncestor(base, cs[0]) {
      TakenAllAre(cs[1..], base, x);
      AncestorsAre(cs[0], x);
      var i := FirstReaching(cs[1..], base);
      assert cs[i + 1] == cs[1..][i];
      if k :| 0 <= k < i && IsAncestor(x, cs[1..][k]) { assert cs[k + 1] == cs[1..][k]; }
      if k :| 0 <= k < i + 1 && IsAncestor(x, cs[k]) && k > 0 { assert cs[1..][k - 1] == cs[k]; }
    }
  }

  /** What is taken is what is on the way. */
  lemma {:induction false} TakenIsOnTheWay(c: Commit, base: Commit, x: Commit)
    requires IsAncestor(base, c)
    ensures x in TakenFrom(c, base) <==> OnTheWay(x, Line(c, base), base)
    decreases c
  {
    if c != base {
      SomeReaches(c, base);
      ReachedIsAncestor(base, c);
      var i := FirstReaching(c.parents, base);
      var next := c.parents[i];
      TakenIsOnTheWay(next, base, x);
      TakenAllAre(c.parents, base, x);
      OnTheWayCons(x, c, Line(next, base), base);
      assert IsAside(x, c, base) <==> exists k :: 0 <= k < i && IsAncestor(x, c.parents[k]);
    }
  }

  lemma OnTheWayCons(x: Commit, c: Commit, line: seq<Commit>, base: Commit)
    ensures OnTheWay(x, [c] + line, base) <==> x == c || IsAside(x, c, base) || OnTheWay(x, line, base)
  {
    assert forall d :: d in [c] + line <==> d == c || d in line;
  }

  /** The line runs inside base..head. */
  lemma {:induction false} LineInRange(c: Commit, base: Commit, x: Commit)
    requires IsAncestor(base, c) && x in Line(c, base)
    ensures IsAncestor(x, c) && IsAncestor(base, x) && x != base && !IsAncestor(x, base)
    ensures FirstReaching(x.parents, base) < |x.parents|
    ensures var next := x.parents[FirstReaching(x.parents, base)]; next == base || next in Line(c, base)
    decreases c
  {
    SomeReaches(c, base);
    var next := c.parents[FirstReaching(c.parents, base)];
    if x == c {
      if IsAncestor(c, base) { AncestorAntisym(c, base); }
      assert next != base ==> Line(next, base)[0] == next;
    } else {
      LineInRange(next, base, x);
      ParentIsAncestor(next, c);
      AncestorTrans(x, next, c);
    }
  }

  /** If nothing goes astray, the whole range is on the way. */
  lemma {:induction false} RangeIsOnTheWay(base: Commit, head: Commit, v: Commit, x: Commit)
    requires IsAncestor(base, head) && NothingAstray(base, head)
    requires v in Line(head, base) && IsAncestor(x, v) && !IsAncestor(x, base)
    ensures OnTheWay(x, Line(head, base), base)
    decreases v
  {
    var line := Line(head, base);
    if x != v {
      LineInRange(head, base, v);
      var k :| 0 <= k < |v.parents| && IsAncestor(x, v.parents[k]);
      var i, p := FirstReaching(v.parents, base), v.parents[k];
      assert ParentOk(v, k, base, line);
      if k < i {
        assert IsAside(x, v, base);
      } else if p in line {
        RangeIsOnTheWay(base, head, p, x);
      } else if IsAncestor(p, base) {
        AncestorTrans(x, p, base);
      } else {
        assert k != i by { assert IsAncestor(base, base); }
        var c :| c in line && IsAside(p, c, base);
        AsideDown(p, c, base, x);
      }
    }
  }

  lemma AsideDown(p: Commit, c: Commit, base: Commit, x: Commit)
    requires IsAside(p, c, base) && IsAncestor(x, p)
    ensures IsAside(x, c, base)
  {
    var k :| 0 <= k < |c.parents| && k < FirstReaching(c.parents, base) && IsAncestor(p, c.parents[k]);
    AncestorTrans(x, p, c.parents[k]);
  }

  /** If nothing goes astray, only the range is on the way. */
  lemma OnTheWayInRange(base: Commit, head: Commit, x: Commit)
    requires IsAncestor(base, head) && NothingAstray(base, head) && OnTheWay(x, Line(head, base), base)
    ensures InRange(x, base, head)
  {
    var line := Line(head, base);
    if x in line {
      LineInRange(head, base, x);
    } else {
      var c :| c in line && IsAside(x, c, base);
      var k :| 0 <= k < |c.parents| && k < FirstReaching(c.parents, base) && IsAncestor(x, c.parents[k]);
      assert ParentOk(c, k, base, line);
      LineInRange(head, base, c);
      ParentIsAncestor(c.parents[k], c);
      AncestorTrans(x, c.parents[k], c);
      AncestorTrans(x, c, head);
    }
  }

  lemma TakesOnTheWay(base: Commit, head: Commit, x: Commit)
    requires IsAncestor(base, head)
    ensures x in TakeUntil(PreOrder(head), base) <==> OnTheWay(x, Line(head, base), base)
  {
    NothingSeen(head);
    TakesFrom(head, {}, base, x);
    TakenIsOnTheWay(head, base, x);
  }

  lemma RangeForcesParents(base: Commit, head: Commit, c: Commit, k: nat)
    requires IsAncestor(base, head) && TakesRange(PreOrder(head), base, head)
    requires c in Line(head, base) && k < |c.parents|
    ensures ParentOk(c, k, base, Line(head, base))
  {
    var i, p := FirstReaching(c.parents, base), c.parents[k];
    if k < i {
      forall x | IsAncestor(x, p) ensures !IsAncestor(x, base) {
        assert IsAside(x, c, base);
        TakesOnTheWay(base, head, x);
      }
    } else if k > i && !IsAncestor(p, base) {
      LineInRange(head, base, c);
      ParentIsAncestor(p, c);
      AncestorTrans(p, c, head);
      TakesOnTheWay(base, head, p);
    }
  }

  /**
   * With head ahead of base, the collect loop takes exactly base..head if and only if nothing goes astray: no parent
   * named before the line shares history with base, and no parent named after it brings in anything new.
   */
  lemma PreOrderTakesRangeIff(base: Commit, head: Commit)
    requires IsAncestor(base, head)
    ensures TakesRange(PreOrder(head), base, head) <==> NothingAstray(base, head)
  {
    var line := Line(head, base);
    if NothingAstray(base, head) {
      forall x ensures x in TakeUntil(PreOrder(head), base) <==> InRange(x, base, head) {
        TakesOnTheWay(base, head, x);
        if OnTheWay(x, line, base) { OnTheWayInRange(base, head, x); }
        if InRange(x, base, head) {
          assert head != base;
          assert line[0] == head;
          RangeIsOnTheWay(base, head, head, x);
        }
      }
    }
    if TakesRange(PreOrder(head), base, head) {
      forall c, k: nat | c in line && k < |c.parents| ensures ParentOk(c, k, base, line) {
        RangeForcesParents(base, head, c, k);
      }
    }
  }

  /** A single-parent history has nothing that could go astray. */
  lemma UnbranchedIsFine(base: Commit, head: Commit)
    requires IsAncestor(base, head) && Unbranched(base, head)
    ensures NothingAstray(base, head)
  {
    PreOrderIsLog(head);
    UnbranchedTakesRange(PreOrder(head), base, head);
    PreOrderTakesRangeIff(base, head);
  }

  /** But a merge need not go astray: here its second parent is on the way already. */
  lemma MergeCanBeFine(base: Commit, a: Commit, b: Commit, head: Commit)
    requires a.parents == [base] && b.parents == [a] && head.parents == [b, a]
    ensures IsAncestor(base, head) && NothingAstray(base, head) && !Unbranched(base, head)
  {
    OneParent(base, a, base);
    OneParent(base, b, a);
    TwoParents(base, head, b, a);
    ParentIsAncestor(base, a);
    ParentIsAncestor(a, b);
    ParentIsAncestor(b, head);
    AncestorTrans(base, a, b);
    AncestorTrans(base, b, head);
    var line := Line(head, base);
    assert a != base && b != base && head != base by { Above(base, a, b, head); }
    assert Line(a, base) == [a];
    assert Line(b, base) == [b] + Line(a, base);
    assert line == [head] + Line(b, base);
    forall c, k: nat | c in line && k < |c.parents| ensures ParentOk(c, k, base, line) {
      assert c == head || c == b || c == a;
    }
    Above(base, a, b, head);
    assert InRange(head, base, head);
    assert !OnlyParent(head, head.parents[0]) by { assert head.parents[1] == a != b; }
  }

  lemma Above(base: Commit, a: Commit, b: Commit, head: Commit)
    requires a.parents == [base] && b.parents == [a] && head.parents == [b, a]
    ensures a != base && b != base && head != base && a != b && !IsAncestor(head, base)
  {
    ParentIsAncestor(base, a);
    ParentIsAncestor(a, b);
    ParentIsAncestor(b, head);
    AncestorTrans(base, a, b);
    AncestorTrans(base, b, head);
    AncestorTrans(a, b, head);
    if b == base { AncestorAntisym(a, b); }
    if head == base { AncestorAntisym(b, head); }
    if IsAncestor(head, base) { AncestorAntisym(head, base); }
  }

  /** A merge with a side branch named first replays what base already has, when the two share history. */
  lemma SideFirstGoesAstray(base: Commit, side: Commit, root: Commit, head: Commit)
    requires head.parents == [side, base] && IsAncestor(root, side) && IsAncestor(root, base) && !IsAncestor(base, side)
    ensures IsAncestor(base, head) && !TakesRange(PreOrder(head), base, head)
  {
    ParentIsAncestor(base, head);
    var line := Line(head, base);
    assert FirstReaching(head.parents, base) == 1 by { assert head.parents[0] == side && head.parents[1] == base; }
    assert line == [head] + Line(base, base);
    assert !ParentOk(head, 0, base, line);
    PreOrderTakesRangeIff(base, head);
  }

  /** A merge that names base first drops the other side, when that has commits of its own. */
  lemma BaseFirstGoesAstray(base: Commit, side: Commit, head: Commit)
    requires head.parents == [base, side] && !IsAncestor(side, base)
    ensures IsAncestor(base, head) && !TakesRange(PreOrder(head), base, head)
  {
    ParentIsAncestor(base, head);
    ParentIsAncestor(side, head);
    var line := Line(head, base);
    assert FirstReaching(head.parents, base) == 0 by { assert head.parents[0] == base; }
    assert line == [head] + Line(base, base);
    assert !IsAside(side, head, base);
    assert line == [head];
    assert !OnTheWay(side, line, base);
    assert head.parents[1] == side;
    assert !ParentOk(head, 1, base, line);
    PreOrderTakesRangeIff(base, head);
  }
}
