/**
 * Search (internal/services/search): LIKE escaping (service.go, escapeLike and its use in searchCode), the in-place
 * sort by score (service.go, sortByScore) and reciprocal rank fusion (fusion.go). Scores are real numbers.
 */
module Search {
  import opened Common
  import opened Text

  // ---------------------------------------------------------------- escaping

  function JoinWith(parts: seq<string>, sep: string): string
    requires parts != []
  {
    if |parts| == 1 then parts[0] else parts[0] + sep + JoinWith(parts[1..], sep)
  }

  /** strings.ReplaceAll(s, before, after) for a non-empty `before`. */
  function ReplaceAll(s: string, before: string, after: string): string
    requires before != ""
  {
    JoinWith(Split(s, before), after)
  }

  function EscapeLike(s: string): string {
    var s1 := ReplaceAll(s, "\\", "\\\\");
    var s2 := ReplaceAll(s1, "%", "\\%");
    ReplaceAll(s2, "_", "\\_")
  }

  predicate IsSpecial(c: char) { c == '\\' || c == '%' || c == '_' }

  /** The escape of one character: a backslash before each special one. */
  const ESCAPE: char -> string := (c: char) => if IsSpecial(c) then ['\\', c] else [c]

  function Substitute(c: char, after: string): char -> string {
    (x: char) => if x == c then after else [x]
  }

  lemma FirstChar(s: string, c: char, i: nat)
    requires i < |s| && s[i] == c && forall j :: 0 <= j < i ==> s[j] != c
    ensures FirstAt(s, [c]) == Some(i)
  {
    assert s[i..i + 1] == [c];
    forall j | 0 <= j < i ensures !At(s, [c], j) {
      assert s[j..j + 1][0] == s[j];
    }
    FirstAtUnique(s, [c], i);
  }

  lemma NoChar(s: string, c: char)
    requires forall j :: 0 <= j < |s| ==> s[j] != c
    ensures FirstAt(s, [c]) == None
  {
    forall j: nat ensures !At(s, [c], j) {
      if j < |s| { assert s[j..j + 1][0] == s[j]; }
    }
    FirstAtNone(s, [c]);
  }

  lemma {:induction false} SubstituteNothing(s: string, c: char, after: string)
    requires forall j :: 0 <= j < |s| ==> s[j] != c
    ensures FlatMap(Substitute(c, after), s) == s
  {
    if s != "" {
      SubstituteNothing(s[1..], c, after);
      assert [s[0]] + s[1..] == s;
    }
  }

  lemma JoinCons(first: string, parts: seq<string>, sep: string)
    requires parts != []
    ensures JoinWith([first] + parts, sep) == first + sep + JoinWith(parts, sep)
  {
    assert ([first] + parts)[1..] == parts;
  }

  lemma ReplaceAt(s: string, c: char, after: string, i: nat)
    requires i < |s| && s[i] == c && forall j :: 0 <= j < i ==> s[j] != c
    ensures ReplaceAll(s, [c], after) == s[..i] + after + ReplaceAll(s[i + 1..], [c], after)
  {
    FirstChar(s, c, i);
    SplitCons(s, [c], i);
    JoinCons(s[..i], Split(s[i + 1..], [c]), after);
  }

  lemma SubstituteAt(head: string, c: char, rest: string, after: string)
    requires forall j :: 0 <= j < |head| ==> head[j] != c
    ensures FlatMap(Substitute(c, after), head + ([c] + rest)) == head + (after + FlatMap(Substitute(c, after), rest))
  {
    FlatMapAppend(Substitute(c, after), head, [c] + rest);
    SubstituteNothing(head, c, after);
    FlatMapCons(Substitute(c, after), c, rest);
  }

  lemma Regroup(a: string, b: string, c: string)
    ensures a + (b + c) == a + b + c
  {
  }

  lemma ReplaceNothing(s: string, c: char, after: string)
    requires forall j :: 0 <= j < |s| ==> s[j] != c
    ensures ReplaceAll(s, [c], after) == s
  {
    NoChar(s, c);
    SplitNone(s, [c]);
  }

  lemma {:induction false} SubstituteSplit(s: string, c: char, after: string, i: nat)
    requires i < |s| && s[i] == c && forall j :: 0 <= j < i ==> s[j] != c
    ensures FlatMap(Substitute(c, after), s) == s[..i] + after + FlatMap(Substitute(c, after), s[i + 1..])
  {
    SubstituteAt(s[..i], c, s[i + 1..], after);
    Regroup(s[..i], after, FlatMap(Substitute(c, after), s[i + 1..]));
    assert s == s[..i] + ([c] + s[i + 1..]);
  }

  /** Replacing a single character is a substitution, character by character. */
  lemma {:induction false} ReplaceIsSubstitute(s: string, c: char, after: string)
    ensures ReplaceAll(s, [c], after) == FlatMap(Substitute(c, after), s)
    decreases |s|
  {
    var i := IndexOf(s, c, 0);
    if i == |s| {
      ReplaceNothing(s, c, after);
      SubstituteNothing(s, c, after);
    } else {
      ReplaceAt(s, c, after, i);
      SubstituteSplit(s, c, after, i);
      ReplaceIsSubstitute(s[i + 1..], c, after);
    }
  }

  lemma {:induction false} SubstituteTwice(f: char -> string, g: char -> string, h: char -> string, s: string)
    requires forall c :: FlatMap(g, f(c)) == h(c)
    ensures FlatMap(g, FlatMap(f, s)) == FlatMap(h, s)
  {
    if s != "" {
      FlatMapAppend(g, f(s[0]), FlatMap(f, s[1..]));
      SubstituteTwice(f, g, h, s[1..]);
    }
  }

  /** Escaping in two of the three steps. */
  function Partly(c: char): string { if c == '\\' || c == '%' then ['\\', c] else [c] }

  lemma TwoOf(g: char -> string, a: char, b: char)
    ensures FlatMap(g, [a, b]) == g(a) + g(b)
  {
    assert [a, b] == [a] + [b];
    FlatMapAppend(g, [a], [b]);
    FlatMapOne(g, a);
    FlatMapOne(g, b);
  }

  lemma ThenPercent(c: char)
    ensures FlatMap(Substitute('%', "\\%"), Substitute('\\', "\\\\")(c)) == Partly(c)
  {
    TwoOf(Substitute('%', "\\%"), '\\', '\\');
    FlatMapOne(Substitute('%', "\\%"), c);
  }

  lemma ThenUnderscore(c: char)
    ensures FlatMap(Substitute('_', "\\_"), Partly(c)) == ESCAPE(c)
  {
    TwoOf(Substitute('_', "\\_"), '\\', c);
    FlatMapOne(Substitute('_', "\\_"), c);
  }

  /** The three replacements in sequence escape each special character once, backslashes included. */
  lemma EscapesEachOnce(s: string)
    ensures EscapeLike(s) == FlatMap(ESCAPE, s)
  {
    var backslash, percent, underscore := Substitute('\\', "\\\\"), Substitute('%', "\\%"), Substitute('_', "\\_");
    var partly := (c: char) => Partly(c);
    ReplaceIsSubstitute(s, '\\', "\\\\");
    var s1 := FlatMap(backslash, s);
    ReplaceIsSubstitute(s1, '%', "\\%");
    var s2 := FlatMap(percent, s1);
    ReplaceIsSubstitute(s2, '_', "\\_");
    forall c ensures FlatMap(percent, backslash(c)) == partly(c) { ThenPercent(c); }
    SubstituteTwice(backslash, percent, partly, s);
    forall c ensures FlatMap(underscore, partly(c)) == ESCAPE(c) { ThenUnderscore(c); }
    SubstituteTwice(partly, underscore, ESCAPE, s);
  }

  // ---------------------------------------------------------------- LIKE

  /**
   * LIKE (section 9.7.1 of the PostgreSQL manual): % is any run of characters, _ any one character, a backslash
   * makes the next character literal. A pattern that ends in a lone backslash matches nothing here.
   */
  predicate Like(text: string, pattern: string)
    decreases |pattern|, |text|
  {
    if pattern == "" then text == ""
    else if pattern[0] == '%' then Like(text, pattern[1..]) || (text != "" && Like(text[1..], pattern))
    else if pattern[0] == '_' then text != "" && Like(text[1..], pattern[1..])
    else if pattern[0] == '\\' then
      |pattern| > 1 && text != "" && text[0] == pattern[1] && Like(text[1..], pattern[2..])
    else text != "" && text[0] == pattern[0] && Like(text[1..], pattern[1..])
  }

  /** The wildcards, and that every other character stands for itself. */
  lemma {:induction false} LikeWildcards(text: string, c: char)
    ensures Like(text, "%")
    ensures Like(text, "_") <==> |text| == 1
    ensures !IsSpecial(c) ==> (Like(text, [c]) <==> text == [c])
    decreases |text|
  {
    assert "%"[1..] == "" && "_"[1..] == "" && [c][1..] == "";
    if text != "" {
      LikeWildcards(text[1..], c);
      assert text == [text[0]] + text[1..];
    }
  }

  lemma LikeOneEscaped(text: string, c: char, pattern: string)
    ensures Like(text, ESCAPE(c) + pattern) <==> text != "" && text[0] == c && Like(text[1..], pattern)
  {
    var p := ESCAPE(c) + pattern;
    if IsSpecial(c) {
      assert p[0] == '\\' && p[1] == c && p[2..] == pattern;
    } else {
      assert p[0] == c && p[1..] == pattern;
    }
  }

  /** An escaped text matches itself and nothing else. */
  lemma {:induction false} LikeEscaped(text: string, q: string, pattern: string)
    ensures Like(text, FlatMap(ESCAPE, q) + pattern) <==> q <= text && Like(text[|q|..], pattern)
    decreases |q|
  {
    if q == "" {
      assert "" + pattern == pattern && text[0..] == text;
    } else {
      var rest := FlatMap(ESCAPE, q[1..]) + pattern;
      assert FlatMap(ESCAPE, q) + pattern == ESCAPE(q[0]) + rest;
      LikeOneEscaped(text, q[0], rest);
      if text != "" {
        LikeEscaped(text[1..], q[1..], pattern);
        PrefixCons(q, text);
      }
    }
  }

  lemma PrefixCons(q: string, text: string)
    requires q != "" && text != ""
    ensures q <= text <==> q[0] == text[0] && q[1..] <= text[1..]
    ensures q <= text ==> text[1..][|q| - 1..] == text[|q|..]
  {
    assert q == [q[0]] + q[1..] && text == [text[0]] + text[1..];
  }

  lemma {:induction false} LikeAnything(text: string)
    ensures Like(text, "%")
    decreases |text|
  {
    if text != "" { LikeAnything(text[1..]); }
  }

  /** A leading % lets the rest match anywhere from some point on. */
  lemma {:induction false} LikeAnywhere(text: string, pattern: string)
    ensures Like(text, "%" + pattern) <==> exists k :: 0 <= k <= |text| && Like(text[k..], pattern)
    decreases |text|
  {
    var p := "%" + pattern;
    assert p[1..] == pattern && text[0..] == text;
    if text != "" {
      LikeAnywhere(text[1..], pattern);
      Shifted(text, pattern);
    }
  }

  lemma Shifted(text: string, pattern: string)
    requires text != ""
    ensures (exists k :: 0 <= k <= |text| && Like(text[k..], pattern))
            <==> Like(text, pattern) || exists k :: 0 <= k <= |text[1..]| && Like(text[1..][k..], pattern)
  {
    assert text[0..] == text;
    forall k | 0 <= k < |text| ensures text[1..][k..] == text[k + 1..] {}
    if k :| 0 <= k <= |text| && Like(text[k..], pattern) && k > 0 {
      assert text[1..][k - 1..] == text[k..];
    }
    if k :| 0 <= k <= |text[1..]| && Like(text[1..][k..], pattern) {
      assert text[k + 1..] == text[1..][k..];
    }
  }

  predicate Occurs(q: string, text: string) {
    exists k :: 0 <= k <= |text| && q <= text[k..]
  }

  /** Case folding, one character at a time. */
  function Fold(fold: char -> char, s: string): string {
    seq(|s|, i requires 0 <= i < |s| => fold(s[i]))
  }

  /** Folding neither makes nor unmakes a special character. */
  ghost predicate KeepsSpecials(fold: char -> char) {
    forall c :: (IsSpecial(c) ==> fold(c) == c) && (IsSpecial(fold(c)) ==> IsSpecial(c))
  }

  lemma FoldEscape(fold: char -> char, c: char)
    requires KeepsSpecials(fold)
    ensures Fold(fold, ESCAPE(c)) == ESCAPE(fold(c))
  {
  }

  lemma FoldAppend(fold: char -> char, a: string, b: string)
    ensures Fold(fold, a + b) == Fold(fold, a) + Fold(fold, b)
  {
  }

  lemma {:induction false} FoldEscaped(fold: char -> char, q: string)
    requires KeepsSpecials(fold)
    ensures Fold(fold, FlatMap(ESCAPE, q)) == FlatMap(ESCAPE, Fold(fold, q))
  {
    if q != "" {
      FoldAppend(fold, ESCAPE(q[0]), FlatMap(ESCAPE, q[1..]));
      FoldEscape(fold, q[0]);
      FoldEscaped(fold, q[1..]);
      assert Fold(fold, q) == [fold(q[0])] + Fold(fold, q[1..]);
      FlatMapCons(ESCAPE, fold(q[0]), Fold(fold, q[1..]));
    }
  }

  /** ILIKE: both sides are folded. */
  predicate ILike(fold: char -> char, text: string, pattern: string) {
    Like(Fold(fold, text), Fold(fold, pattern))
  }

  lemma LikeContains(text: string, q: string)
    ensures Like(text, "%" + (FlatMap(ESCAPE, q) + "%")) <==> Occurs(q, text)
  {
    LikeAnywhere(text, FlatMap(ESCAPE, q) + "%");
    forall k | 0 <= k <= |text|
      ensures Like(text[k..], FlatMap(ESCAPE, q) + "%") <==> q <= text[k..]
    {
      LikeEscaped(text[k..], q, "%");
      if q <= text[k..] { LikeAnything(text[k..][|q|..]); }
    }
  }

  /**
   * The search condition means what a user expects: the file's content contains the query literally, whatever
   * backslashes, percent signs and underscores it holds, up to case.
   */
  lemma SearchIsLiteral(fold: char -> char, content: string, query: string)
    requires KeepsSpecials(fold)
    ensures ILike(fold, content, "%" + (EscapeLike(query) + "%")) <==> Occurs(Fold(fold, query), Fold(fold, content))
  {
    EscapesEachOnce(query);
    FoldEscaped(fold, query);
    FoldAppend(fold, "%", FlatMap(ESCAPE, query) + "%");
    FoldAppend(fold, FlatMap(ESCAPE, query), "%");
    assert Fold(fold, "%") == "%";
    LikeContains(Fold(fold, content), Fold(fold, query));
  }

  // ---------------------------------------------------------------- sorting

  datatype SearchResult = SearchResult(id: string, title: string, score: real)

  ghost predicate SortedByScore(s: seq<SearchResult>) {
    forall i, j :: 0 <= i < j < |s| ==> s[i].score >= s[j].score
  }

  /** The results of one score, in the order they come. */
  function OfScore(s: seq<SearchResult>, score: real): seq<SearchResult> {
    if s == [] then [] else (if s[0].score == score then [s[0]] else []) + OfScore(s[1..], score)
  }

  /** The same results, those of equal score in the same order. */
  ghost predicate Rearranged(before: seq<SearchResult>, after: seq<SearchResult>) {
    multiset(after) == multiset(before) && forall score :: OfScore(after, score) == OfScore(before, score)
  }

  lemma {:induction false} OfScoreAppend(a: seq<SearchResult>, b: seq<SearchResult>, score: real)
    ensures OfScore(a + b, score) == OfScore(a, score) + OfScore(b, score)
  {
    if a == [] {
      assert a + b == b;
    } else {
      assert (a + b)[1..] == a[1..] + b;
      OfScoreAppend(a[1..], b, score);
    }
  }

  function Swapped(s: seq<SearchResult>, j: nat): seq<SearchResult>
    requires 0 < j < |s|
  {
    s[..j - 1] + ([s[j], s[j - 1]] + s[j + 1..])
  }

  lemma SwapOfScore(a: seq<SearchResult>, x: SearchResult, y: SearchResult, b: seq<SearchResult>, score: real)
    requires x.score != y.score
    ensures OfScore(a + ([x, y] + b), score) == OfScore(a + ([y, x] + b), score)
  {
    PairOfScore(x, y, score);
    OfScoreAppend(a, [x, y] + b, score);
    OfScoreAppend([x, y], b, score);
    OfScoreAppend(a, [y, x] + b, score);
    OfScoreAppend([y, x], b, score);
  }

  lemma SwapContents(a: seq<SearchResult>, x: SearchResult, y: SearchResult, b: seq<SearchResult>)
    ensures multiset(a + ([x, y] + b)) == multiset(a + ([y, x] + b))
  {
    assert [x, y] == [x] + [y] && [y, x] == [y] + [x];
  }

  /** Swapping two neighbours of different score only rearranges. */
  lemma SwapRearranges(s: seq<SearchResult>, j: nat)
    requires 0 < j < |s| && s[j].score != s[j - 1].score
    ensures Rearranged(s, Swapped(s, j))
  {
    var a, x, y, b := s[..j - 1], s[j - 1], s[j], s[j + 1..];
    assert s == a + ([x, y] + b);
    SwapContents(a, x, y, b);
    forall score ensures OfScore(Swapped(s, j), score) == OfScore(s, score) { SwapOfScore(a, x, y, b, score); }
  }

  lemma PairOfScore(x: SearchResult, y: SearchResult, score: real)
    requires x.score != y.score
    ensures OfScore([x, y], score) == OfScore([y, x], score)
  {
    assert [x, y][1..] == [y] && [y, x][1..] == [x];
    assert [x][1..] == [] && [y][1..] == [];
  }

  ghost predicate SortedUpTo(s: seq<SearchResult>, n: nat) {
    forall p, q :: 0 <= p < q < n && q < |s| ==> s[p].score >= s[q].score
  }

  /** The first `n` elements are sorted but for the one at `j`, which outranks everything right of it. */
  ghost predicate Sinking(s: seq<SearchResult>, n: nat, j: nat)
    requires j < n <= |s|
  {
    && (forall p, q :: 0 <= p < q < n && p != j && q != j ==> s[p].score >= s[q].score)
    && (forall q :: j < q < n ==> s[j].score > s[q].score)
  }

  lemma SinkStep(s: seq<SearchResult>, n: nat, j: nat)
    requires 0 < j < n <= |s| && Sinking(s, n, j) && s[j].score > s[j - 1].score
    ensures Sinking(Swapped(s, j), n, j - 1)
  {
    var t := Swapped(s, j);
    assert t[j - 1] == s[j] && t[j] == s[j - 1];
    assert forall q :: 0 <= q < |s| && q != j && q != j - 1 ==> t[q] == s[q];
  }

  lemma Sunk(s: seq<SearchResult>, n: nat, j: nat)
    requires j < n <= |s| && Sinking(s, n, j) && (j == 0 || s[j].score <= s[j - 1].score)
    ensures SortedUpTo(s, n)
  {
    forall p | 0 <= p < j ensures s[p].score >= s[j].score {
      if p < j - 1 { assert s[p].score >= s[j - 1].score; }
    }
  }

  /** One swap of the inner loop. */
  method SwapBack(results: array<SearchResult>, j: nat, n: nat)
    requires 0 < j < n <= results.Length && Sinking(results[..], n, j) && results[j].score > results[j - 1].score
    modifies results
    ensures Rearranged(old(results[..]), results[..]) && Sinking(results[..], n, j - 1)
  {
    ghost var before := results[..];
    SwapRearranges(before, j);
    SinkStep(before, n, j);
    results[j], results[j - 1] := results[j - 1], results[j];
    assert results[..] == Swapped(before, j);
  }

  /** A stable sort by descending score. */
  method SortByScore(results: array<SearchResult>)
    modifies results
    ensures SortedByScore(results[..]) && Rearranged(old(results[..]), results[..])
  {
    var i := 1;
    while i < results.Length
      invariant 1 <= i && SortedUpTo(results[..], i) && Rearranged(old(results[..]), results[..])
    {
      var j := i;
      while j > 0 && results[j].score > results[j - 1].score
        invariant 0 <= j <= i && Sinking(results[..], i + 1, j) && Rearranged(old(results[..]), results[..])
      {
        SwapBack(results, j, i + 1);
        j := j - 1;
      }
      Sunk(results[..], i + 1, j);
      i := i + 1;
    }
  }

  // ---------------------------------------------------------------- rank fusion

  const DEFAULT_K: nat := 60

  function Reciprocal(k: nat, rank: nat): real { 1.0 / (k + rank + 1) as real }

  /** What `id` earns in a list whose first element has rank `from`: the sum over every place it stands. */
  function RankSum(list: seq<SearchResult>, id: string, k: nat, from: nat): real {
    if list == [] then 0.0
    else (if list[0].id == id then Reciprocal(k, from) else 0.0) + RankSum(list[1..], id, k, from + 1)
  }

  lemma {:induction false} RankSumSnoc(list: seq<SearchResult>, r: SearchResult, id: string, k: nat, from: nat)
    ensures RankSum(list + [r], id, k, from)
            == RankSum(list, id, k, from) + (if r.id == id then Reciprocal(k, from + |list|) else 0.0)
    decreases |list|
  {
    if list == [] {
      assert (list + [r])[1..] == [];
    } else {
      assert (list + [r])[1..] == list[1..] + [r];
      RankSumSnoc(list[1..], r, id, k, from + 1);
    }
  }

  ghost predicate HasId(list: seq<SearchResult>, id: string) {
    exists i :: 0 <= i < |list| && list[i].id == id
  }

  /** The scores after a list: what they were, plus what the list earns each id. */
  ghost predicate Scored(scores: map<string, real>, fts: seq<SearchResult>, semantic: seq<SearchResult>, k: nat) {
    && (forall id :: id in scores <==> HasId(fts, id) || HasId(semantic, id))
    && forall id :: id in scores ==> scores[id] == RankSum(fts, id, k, 0) + RankSum(semantic, id, k, 0)
  }

  function Bump(scores: map<string, real>, id: string, gain: real): map<string, real> {
    scores[id := (if id in scores then scores[id] else 0.0) + gain]
  }

  lemma {:induction false} NotInNoSum(list: seq<SearchResult>, id: string, k: nat, from: nat)
    requires !HasId(list, id)
    ensures RankSum(list, id, k, from) == 0.0
    decreases |list|
  {
    if list != [] {
      assert list[0].id != id;
      forall i | 0 <= i < |list[1..]| ensures list[1..][i].id != id { assert list[1..][i] == list[i + 1]; }
      NotInNoSum(list[1..], id, k, from + 1);
    }
  }

  lemma HasIdSnoc(list: seq<SearchResult>, r: SearchResult, id: string)
    ensures HasId(list + [r], id) <==> HasId(list, id) || r.id == id
  {
    assert (list + [r])[|list|] == r;
    assert forall i :: 0 <= i < |list| ==> (list + [r])[i] == list[i];
  }

  lemma BumpFts(scores: map<string, real>, fts: seq<SearchResult>, r: SearchResult, k: nat)
    requires Scored(scores, fts, [], k)
    ensures Scored(Bump(scores, r.id, Reciprocal(k, |fts|)), fts + [r], [], k)
  {
    forall id ensures HasId(fts + [r], id) <==> HasId(fts, id) || r.id == id { HasIdSnoc(fts, r, id); }
    forall id
      ensures RankSum(fts + [r], id, k, 0)
           == RankSum(fts, id, k, 0) + (if r.id == id then Reciprocal(k, |fts|) else 0.0)
    {
      RankSumSnoc(fts, r, id, k, 0);
    }
    if r.id !in scores { NotInNoSum(fts, r.id, k, 0); }
  }

  lemma BumpSemantic(scores: map<string, real>, fts: seq<SearchResult>, semantic: seq<SearchResult>, r: SearchResult,
                     k: nat)
    requires Scored(scores, fts, semantic, k)
    ensures Scored(Bump(scores, r.id, Reciprocal(k, |semantic|)), fts, semantic + [r], k)
  {
    forall id ensures HasId(semantic + [r], id) <==> HasId(semantic, id) || r.id == id { HasIdSnoc(semantic, r, id); }
    forall id
      ensures RankSum(semantic + [r], id, k, 0)
              == RankSum(semantic, id, k, 0) + (if r.id == id then Reciprocal(k, |semantic|) else 0.0)
    {
      RankSumSnoc(semantic, r, id, k, 0);
    }
    if r.id !in scores {
      NotInNoSum(fts, r.id, k, 0);
      NotInNoSum(semantic, r.id, k, 0);
    }
  }

  /** An item shown for an id is one of the inputs with that id, from the full-text list if it is there. */
  ghost predicate Itemised(items: map<string, SearchResult>, fts: seq<SearchResult>, semantic: seq<SearchResult>) {
    && (forall id :: id in items <==> HasId(fts, id) || HasId(semantic, id))
    && forall id :: id in items ==> items[id].id == id && items[id] in (if HasId(fts, id) then fts else semantic)
  }

  lemma ItemFts(items: map<string, SearchResult>, fts: seq<SearchResult>, r: SearchResult)
    requires Itemised(items, fts, [])
    ensures Itemised(items[r.id := r], fts + [r], [])
  {
    forall id ensures HasId(fts + [r], id) <==> HasId(fts, id) || r.id == id { HasIdSnoc(fts, r, id); }
  }

  lemma ItemSemantic(items: map<string, SearchResult>, fts: seq<SearchResult>, semantic: seq<SearchResult>,
                     r: SearchResult)
    requires Itemised(items, fts, semantic)
    ensures Itemised(if r.id in items then items else items[r.id := r], fts, semantic + [r])
  {
    forall id ensures HasId(semantic + [r], id) <==> HasId(semantic, id) || r.id == id { HasIdSnoc(semantic, r, id); }
  }

  /** Every id of either list once, each with its exact score and an item of its own, best first. */
  ghost predicate IsFused(merged: seq<SearchResult>, fts: seq<SearchResult>, semantic: seq<SearchResult>, k: nat) {
    && SortedByScore(merged)
    && (forall i, j :: 0 <= i < j < |merged| ==> merged[i].id != merged[j].id)
    && (forall id :: HasId(merged, id) <==> HasId(fts, id) || HasId(semantic, id))
    && forall i :: 0 <= i < |merged| ==> IsItem(merged[i], fts, semantic, k)
  }

  ghost predicate IsItem(r: SearchResult, fts: seq<SearchResult>, semantic: seq<SearchResult>, k: nat) {
    && r.score == RankSum(fts, r.id, k, 0) + RankSum(semantic, r.id, k, 0)
    && exists item :: item in (if HasId(fts, r.id) then fts else semantic) && r == item.(score := r.score)
  }

  lemma NextPrefix(list: seq<SearchResult>, rank: nat)
    requires rank < |list|
    ensures list[..rank + 1] == list[..rank] + [list[rank]] && |list[..rank]| == rank
  {
  }

  method ScoreFts(fts: seq<SearchResult>, k: nat) returns (scores: map<string, real>, items: map<string, SearchResult>)
    ensures Scored(scores, fts, [], k) && Itemised(items, fts, [])
  {
    scores, items := map[], map[];
    var rank := 0;
    while rank < |fts|
      invariant 0 <= rank <= |fts|
      invariant Scored(scores, fts[..rank], [], k)
      invariant Itemised(items, fts[..rank], [])
    {
      var r := fts[rank];
      NextPrefix(fts, rank);
      BumpFts(scores, fts[..rank], r, k);
      ItemFts(items, fts[..rank], r);
      scores := Bump(scores, r.id, 1.0 / (k + rank + 1) as real);
      items := items[r.id := r];
      rank := rank + 1;
    }
    assert fts[..rank] == fts;
  }

  method ScoreSemantic(scores0: map<string, real>, items0: map<string, SearchResult>, ghost fts: seq<SearchResult>,
                       semantic: seq<SearchResult>, k: nat)
    returns (scores: map<string, real>, items: map<string, SearchResult>)
    requires Scored(scores0, fts, [], k) && Itemised(items0, fts, [])
    ensures Scored(scores, fts, semantic, k) && Itemised(items, fts, semantic)
  {
    scores, items := scores0, items0;
    var rank := 0;
    assert semantic[..0] == [];
    while rank < |semantic|
      invariant 0 <= rank <= |semantic|
      invariant Scored(scores, fts, semantic[..rank], k)
      invariant Itemised(items, fts, semantic[..rank])
    {
      var r := semantic[rank];
      NextPrefix(semantic, rank);
      BumpSemantic(scores, fts, semantic[..rank], r, k);
      ItemSemantic(items, fts, semantic[..rank], r);
      scores := Bump(scores, r.id, 1.0 / (k + rank + 1) as real);
      if r.id !in items { items := items[r.id := r]; }
      rank := rank + 1;
    }
    assert semantic[..rank] == semantic;
  }

  /** An entry of the merged list: the item of its id with the score of its id. */
  ghost predicate IsEntry(r: SearchResult, scores: map<string, real>, items: map<string, SearchResult>) {
    r.id in items && r.id in scores && r == items[r.id].(score := scores[r.id])
  }

  ghost predicate DistinctIds(s: seq<SearchResult>) {
    forall i, j :: 0 <= i < j < |s| ==> s[i].id != s[j].id
  }

  ghost predicate AllEntries(s: seq<SearchResult>, scores: map<string, real>, items: map<string, SearchResult>) {
    forall i :: 0 <= i < |s| ==> IsEntry(s[i], scores, items)
  }

  lemma DistinctSnoc(s: seq<SearchResult>, r: SearchResult)
    requires DistinctIds(s) && !HasId(s, r.id)
    ensures DistinctIds(s + [r])
  {
    forall i | 0 <= i < |s| ensures s[i].id != r.id { assert HasId(s, s[i].id); }
  }

  /** The items in whatever order the map yields them, each with its score. */
  method Merge(scores: map<string, real>, items: map<string, SearchResult>) returns (merged: seq<SearchResult>)
    requires scores.Keys == items.Keys && forall id :: id in items ==> items[id].id == id
    ensures DistinctIds(merged) && AllEntries(merged, scores, items)
    ensures forall id :: HasId(merged, id) <==> id in items
  {
    merged := [];
    var todo := items.Keys;
    while todo != {}
      invariant todo <= items.Keys && DistinctIds(merged) && AllEntries(merged, scores, items)
      invariant forall id :: HasId(merged, id) <==> id in items && id !in todo
      decreases todo
    {
      var id :| id in todo;
      var item := items[id].(score := scores[id]);
      forall other ensures HasId(merged + [item], other) <==> HasId(merged, other) || other == id {
        HasIdSnoc(merged, item, other);
      }
      DistinctSnoc(merged, item);
      merged := merged + [item];
      todo := todo - {id};
    }
  }

  /** sort.Slice by descending score: sorted, the same results, ties in any order; here some such order. */
  method SortSlice(s: seq<SearchResult>) returns (sorted: seq<SearchResult>)
    ensures SortedByScore(sorted) && multiset(sorted) == multiset(s)
  {
    var a := new SearchResult[|s|](i requires 0 <= i < |s| => s[i]);
    assert a[..] == s;
    SortByScore(a);
    sorted := a[..];
  }

  lemma SameElements(a: seq<SearchResult>, b: seq<SearchResult>, r: SearchResult)
    requires multiset(a) == multiset(b)
    ensures r in a <==> r in b
  {
    assert r in a <==> r in multiset(a);
  }

  lemma HasIdIn(s: seq<SearchResult>, id: string)
    ensures HasId(s, id) <==> exists r :: r in s && r.id == id
  {
  }

  lemma SameIds(a: seq<SearchResult>, b: seq<SearchResult>, id: string)
    requires multiset(a) == multiset(b)
    ensures HasId(a, id) <==> HasId(b, id)
  {
    forall r ensures r in a <==> r in b { SameElements(a, b, r); }
    HasIdIn(a, id);
    HasIdIn(b, id);
  }

  /** Distinct ids: an element occurs where its id does, and only there. */
  lemma {:induction false} DistinctMultiset(a: seq<SearchResult>, b: seq<SearchResult>)
    requires DistinctIds(a) && multiset(a) == multiset(b)
    ensures DistinctIds(b)
  {
    forall i, j | 0 <= i < j < |b| ensures b[i].id != b[j].id {
      if b[i].id == b[j].id {
        SameElements(a, b, b[i]);
        SameElements(a, b, b[j]);
        var p :| 0 <= p < |a| && a[p] == b[i];
        var q :| 0 <= q < |a| && a[q] == b[j];
        assert p == q;
        TwoPlaces(b, i, j);
        OnePlace(a, p);
        assert false;
      }
    }
  }

  lemma TwoPlaces(s: seq<SearchResult>, i: nat, j: nat)
    requires i < j < |s| && s[i] == s[j]
    ensures multiset(s)[s[i]] >= 2
  {
    assert s == s[..i] + ([s[i]] + (s[i + 1..j] + ([s[j]] + s[j + 1..])));
  }

  lemma OnePlace(s: seq<SearchResult>, i: nat)
    requires i < |s| && DistinctIds(s)
    ensures multiset(s)[s[i]] == 1
  {
    assert s == s[..i] + ([s[i]] + s[i + 1..]);
    assert s[i] !in s[..i] && s[i] !in s[i + 1..];
  }

  /** Reciprocal rank fusion, whatever order the map iterates in. */
  method FuseResults(fts: seq<SearchResult>, semantic: seq<SearchResult>, k: int) returns (merged: seq<SearchResult>)
    ensures IsFused(merged, fts, semantic, if k <= 0 then 60 else k)
  {
    var c: nat := if k <= 0 then DEFAULT_K else k;
    var scores, items := ScoreFts(fts, c);
    scores, items := ScoreSemantic(scores, items, fts, semantic, c);
    assert scores.Keys == items.Keys;
    var unsorted := Merge(scores, items);
    merged := SortSlice(unsorted);
    FusedFacts(merged, unsorted, scores, items, fts, semantic, c);
  }

  lemma FusedFacts(merged: seq<SearchResult>, unsorted: seq<SearchResult>, scores: map<string, real>,
                   items: map<string, SearchResult>, fts: seq<SearchResult>, semantic: seq<SearchResult>, k: nat)
    requires Scored(scores, fts, semantic, k) && Itemised(items, fts, semantic)
    requires DistinctIds(unsorted) && AllEntries(unsorted, scores, items)
    requires forall id :: HasId(unsorted, id) <==> id in items
    requires SortedByScore(merged) && multiset(merged) == multiset(unsorted)
    ensures IsFused(merged, fts, semantic, k)
  {
    DistinctMultiset(unsorted, merged);
    forall id ensures HasId(merged, id) <==> HasId(fts, id) || HasId(semantic, id) { SameIds(merged, unsorted, id); }
    forall i | 0 <= i < |merged| ensures IsItem(merged[i], fts, semantic, k) {
      SameElements(merged, unsorted, merged[i]);
      var p :| 0 <= p < |unsorted| && unsorted[p] == merged[i];
      assert IsEntry(unsorted[p], scores, items);
      EntryIsItem(merged[i], scores, items, fts, semantic, k);
    }
  }

  lemma EntryIsItem(r: SearchResult, scores: map<string, real>, items: map<string, SearchResult>,
                    fts: seq<SearchResult>, semantic: seq<SearchResult>, k: nat)
    requires Scored(scores, fts, semantic, k) && Itemised(items, fts, semantic) && IsEntry(r, scores, items)
    ensures IsItem(r, fts, semantic, k)
  {
    var item := items[r.id];
    assert item in (if HasId(fts, r.id) then fts else semantic) && r == item.(score := r.score);
  }

  // ---------------------------------------------------------------- what fusion prefers

  /** In a list of distinct ids, an id earns the reciprocal of its one rank. */
  lemma {:induction false} RankSumAt(list: seq<SearchResult>, rank: nat, k: nat, from: nat)
    requires DistinctIds(list) && rank < |list|
    ensures RankSum(list, list[rank].id, k, from) == Reciprocal(k, from + rank)
    decreases |list|
  {
    var id := list[rank].id;
    if rank == 0 {
      assert forall i :: 0 < i < |list| ==> list[i].id != list[0].id;
      assert !HasId(list[1..], id);
      NotInNoSum(list[1..], id, k, from + 1);
    } else {
      assert list[0].id != id && list[1..][rank - 1] == list[rank];
      RankSumAt(list[1..], rank - 1, k, from + 1);
    }
  }

  lemma LowerRankEarnsLess(k: nat, a: nat, b: nat)
    requires a <= b
    ensures Reciprocal(k, b) <= Reciprocal(k, a)
  {
    var x, y := (k + a + 1) as real, (k + b + 1) as real;
    assert 1.0 / x - 1.0 / y == (y - x) / (x * y);
  }

  /** Two places at rank k are together worth more than one first place, two at rank k + 1 exactly as much. */
  lemma TwiceAtRank(k: nat)
    requires k > 0
    ensures Reciprocal(k, k) + Reciprocal(k, k) > Reciprocal(k, 0)
    ensures Reciprocal(k, k + 1) + Reciprocal(k, k + 1) == Reciprocal(k, 0)
  {
    var x := (k + 1) as real;
    assert (k + k + 1) as real == 2.0 * x - 1.0 && (k + (k + 1) + 1) as real == 2.0 * x;
    assert 1.0 / (2.0 * x) + 1.0 / (2.0 * x) == 1.0 / x;
    assert 1.0 / (2.0 * x - 1.0) > 1.0 / (2.0 * x);
  }

  /**
   * With distinct ids in each list, an item found in both at zero-based ranks of at most k outranks every item found
   * in one list only, wherever that one stands.
   */
  lemma BothListsOutrankOne(fts: seq<SearchResult>, semantic: seq<SearchResult>, k: nat, a: nat, b: nat,
                            single: seq<SearchResult>, c: nat)
    requires k > 0 && DistinctIds(fts) && DistinctIds(semantic)
    requires a < |fts| && b < |semantic| && fts[a].id == semantic[b].id && a <= k && b <= k
    requires (single == fts && c < |fts| && !HasId(semantic, fts[c].id))
             || (single == semantic && c < |semantic| && !HasId(fts, semantic[c].id))
    ensures var id, other := fts[a].id, single[c].id;
            RankSum(fts, id, k, 0) + RankSum(semantic, id, k, 0)
            > RankSum(fts, other, k, 0) + RankSum(semantic, other, k, 0)
  {
    RankSumAt(fts, a, k, 0);
    RankSumAt(semantic, b, k, 0);
    RankSumAt(single, c, k, 0);
    if single == fts && !HasId(semantic, fts[c].id) {
      NotInNoSum(semantic, fts[c].id, k, 0);
    } else {
      NotInNoSum(fts, semantic[c].id, k, 0);
    }
    LowerRankEarnsLess(k, a, k);
    LowerRankEarnsLess(k, b, k);
    LowerRankEarnsLess(k, 0, c);
    TwiceAtRank(k);
  }

  /** So it stands before them in any fused list. */
  lemma FusedPrefersBoth(merged: seq<SearchResult>, fts: seq<SearchResult>, semantic: seq<SearchResult>, k: nat,
                         a: nat, b: nat, single: seq<SearchResult>, c: nat, i: nat, j: nat)
    requires k > 0 && DistinctIds(fts) && DistinctIds(semantic) && IsFused(merged, fts, semantic, k)
    requires a < |fts| && b < |semantic| && fts[a].id == semantic[b].id && a <= k && b <= k
    requires (single == fts && c < |fts| && !HasId(semantic, fts[c].id))
             || (single == semantic && c < |semantic| && !HasId(fts, semantic[c].id))
    requires i < |merged| && merged[i].id == fts[a].id && j < |merged| && merged[j].id == single[c].id
    ensures i < j
  {
    BothListsOutrankOne(fts, semantic, k, a, b, single, c);
    assert IsItem(merged[i], fts, semantic, k) && IsItem(merged[j], fts, semantic, k);
    HigherStandsFirst(merged, i, j);
  }

  lemma HigherStandsFirst(merged: seq<SearchResult>, i: nat, j: nat)
    requires SortedByScore(merged) && i < |merged| && j < |merged| && merged[i].score > merged[j].score
    ensures i < j
  {
  }
}
