/**
 * Git's pkt-line framing (internal/git/http.go): the pre-receive check that reads ref updates out of a push
 * before git sees it, and the reply and advertisement headers. The format is that of gitprotocol-common
 * (section "pkt-line Format") and gitprotocol-pack (section "Reference Update Request and Packfile Transfer").
 *
 * Strings are sequences of bytes.
 */
module PktLine {
  import opened Common
  import opened Text

  const NUL: char := 0 as char

  const FLUSH := "0000"

  // ---------------------------------------------------------------- printing

  function HexLength(n: nat): (k: nat)
    ensures k >= 4
  {
    if n < 0x1_0000 then 4 else HexLength(n / 16) + 1
  }

  /** %04x: at least four digits, more when the number needs them. */
  function Hex4(n: nat): (s: string)
    ensures |s| == HexLength(n)
  {
    Digits(n, 16, HexLength(n))
  }

  function Pkt(payload: string): string {
    Hex4(|payload| + 4) + payload
  }

  function Pkts(payloads: seq<string>): string {
    if payloads == [] then "" else Pkt(payloads[0]) + Pkts(payloads[1..])
  }

  // ---------------------------------------------------------------- reading

  /**
   * fmt.Sscanf(data[:4], "%04x", &length): all that is relied on is that four lower-case hex digits read as their
   * value; whatever else the scanner accepts, and as what, is left open.
   */
  type Scan = string -> Option<int>

  ghost predicate ScansHex(scan: Scan) {
    forall n: nat :: n < 0x1_0000 ==> scan(Digits(n, 16, 4)) == Some(n)
  }

  /** The payloads before the flush, or before the first bytes that are no pkt-line. */
  function Lines(scan: Scan, data: string): seq<string>
    decreases |data|
  {
    if |data| < 4 then []
    else match scan(data[..4])
         case None => []
         case Some(length) =>
           if length < 4 || length > |data| then []
           else [data[4..length]] + Lines(scan, data[length..])
  }

  lemma ShortHex(n: nat)
    requires n < 0x1_0000
    ensures Hex4(n) == Digits(n, 16, 4)
  {
  }

  lemma LinesOfPkt(scan: Scan, payload: string, rest: string)
    requires ScansHex(scan) && |payload| + 4 < 0x1_0000
    ensures Lines(scan, Pkt(payload) + rest) == [payload] + Lines(scan, rest)
  {
    var n := |payload| + 4;
    ShortHex(n);
    var data := Pkt(payload) + rest;
    assert data[..4] == Digits(n, 16, 4);
    assert data[4..n] == payload && data[n..] == rest;
  }

  /** Nothing after a flush is looked at. */
  lemma FlushEnds(scan: Scan, rest: string)
    requires ScansHex(scan)
    ensures Lines(scan, FLUSH + rest) == []
  {
    assert Digits(0, 16, 4) == FLUSH by {
      assert Digits(0, 16, 1) == "0" && Digits(0, 16, 2) == "00" && Digits(0, 16, 3) == "000";
    }
    assert (FLUSH + rest)[..4] == FLUSH;
  }

  ghost predicate AllFit(payloads: seq<string>) {
    forall i :: 0 <= i < |payloads| ==> |payloads[i]| + 4 < 0x1_0000
  }

  /** Reading gives back what was printed, and no byte after the flush matters. */
  lemma {:induction false} LinesOfPkts(scan: Scan, payloads: seq<string>, rest: string)
    requires ScansHex(scan) && AllFit(payloads)
    ensures Lines(scan, Pkts(payloads) + (FLUSH + rest)) == payloads
  {
    if payloads == [] {
      assert "" + (FLUSH + rest) == FLUSH + rest;
      FlushEnds(scan, rest);
    } else {
      var tail := Pkts(payloads[1..]) + (FLUSH + rest);
      assert Pkts(payloads) + (FLUSH + rest) == Pkt(payloads[0]) + tail;
      LinesOfPkt(scan, payloads[0], tail);
      LinesOfPkts(scan, payloads[1..], rest);
      assert [payloads[0]] + payloads[1..] == payloads;
    }
  }

  lemma {:induction false} LongHexPrefix(n: nat)
    requires n >= 0x1_0000
    ensures exists m: nat :: m < 0x1_0000 && m < n && Hex4(n)[..4] == Digits(m, 16, 4)
  {
    assert HexLength(n) == HexLength(n / 16) + 1;
    assert Hex4(n) == Digits(n / 16, 16, HexLength(n / 16)) + [DigitChar(n % 16)];
    if n / 16 < 0x1_0000 {
      assert Hex4(n)[..4] == Digits(n / 16, 16, 4);
    } else {
      LongHexPrefix(n / 16);
      assert Hex4(n)[..4] == Hex4(n / 16)[..4];
    }
  }

  /** A payload reads back exactly when its length takes four digits. */
  lemma PktReadsBackIff(scan: Scan, payload: string, rest: string)
    requires ScansHex(scan)
    ensures Lines(scan, Pkt(payload) + rest) == [payload] + Lines(scan, rest) <==> |payload| + 4 < 0x1_0000
  {
    if |payload| + 4 < 0x1_0000 {
      LinesOfPkt(scan, payload, rest);
    } else {
      var n := |payload| + 4;
      LongHexPrefix(n);
      var m: nat :| m < 0x1_0000 && m < n && Hex4(n)[..4] == Digits(m, 16, 4);
      var data := Pkt(payload) + rest;
      assert data[..4] == Hex4(n)[..4];
      var lines := Lines(scan, data);
      assert scan(data[..4]) == Some(m);
      assert lines != [] ==> |lines[0]| == m - 4;
    }
  }

  // ---------------------------------------------------------------- the pre-receive check

  /** One ref update as the hook sees it; the branch name is without "refs/heads/". */
  datatype Call = Call(branch: string, oldSha: string, newSha: string)

  /** The length of the part of s[..n] that stays when the line feeds at its end go. */
  function TrimmedLength(s: string, n: nat): (k: nat)
    requires n <= |s|
    ensures k <= n && (k > 0 ==> s[k - 1] != '\n') && forall i :: k <= i < n ==> s[i] == '\n'
  {
    if n > 0 && s[n - 1] == '\n' then TrimmedLength(s, n - 1) else n
  }

  /** strings.TrimRight(s, "\n"). */
  function TrimNewlines(s: string): string {
    s[..TrimmedLength(s, |s|)]
  }

  const HEADS := "refs/heads/"

  /** The call a payload leads to: none unless it has three fields and names a branch. */
  function CallOf(payload: string): Option<Call> {
    var line := TrimNewlines(SplitOnce(payload, NUL).0);
    var (oldSha, rest) := SplitOnce(line, ' ');
    if rest.None? then None
    else
      var (newSha, name) := SplitOnce(rest.value, ' ');
      if name.None? || !StartsWith(name.value, HEADS) then None
      else Some(Call(name.value[|HEADS|..], oldSha, newSha))
  }

  const CALL_OF: Parse := payload => CallOf(payload)

  type Parse = string -> Option<Call>

  function CallsOf(parse: Parse, payloads: seq<string>): seq<Call> {
    if payloads == [] then []
    else (match parse(payloads[0]) case None => [] case Some(c) => [c]) + CallsOf(parse, payloads[1..])
  }

  type Hook = Call -> Option<string>

  ghost predicate LetPass(hook: Hook, calls: seq<Call>) {
    forall i :: 0 <= i < |calls| ==> hook(calls[i]) == None
  }

  lemma LetPassSnoc(hook: Hook, calls: seq<Call>, call: Call)
    requires LetPass(hook, calls) && hook(call) == None
    ensures LetPass(hook, calls + [call])
  {
  }

  /** A refusal: the call refused and the reason. */
  type Refusal = (Call, string)

  /** The hook let the calls pass that come first among those named, and refused the next one or all were let pass. */
  ghost predicate Outcome(hook: Hook, named: seq<Call>, passed: seq<Call>, refusal: Option<Refusal>) {
    && |passed| <= |named| && passed == named[..|passed|] && LetPass(hook, passed)
    && match refusal
       case None => |passed| == |named|
       case Some((call, reason)) => |passed| < |named| && named[|passed|] == call && hook(call) == Some(reason)
  }

  /**
   * checkPreReceive, on every byte string: the hook is called in order on the updates the body names, until it
   * refuses one.
   */
  method CheckPreReceive(scan: Scan, parse: Parse, hook: Hook, body: string)
    returns (refusal: Option<Refusal>, passed: seq<Call>)
    ensures Outcome(hook, CallsOf(parse, Lines(scan, body)), passed, refusal)
  {
    var data := body;
    passed, refusal := [], None;
    ghost var named := CallsOf(parse, Lines(scan, body));
    while |data| > 0
      invariant |passed| <= |named| && passed == named[..|passed|] && LetPass(hook, passed)
      invariant CallsOf(parse, Lines(scan, data)) == named[|passed|..]
      decreases |data|
    {
      var next := NextLine(scan, data);
      if next.None? { break; }
      var line := next.value.0;
      data := next.value.1;
      CallsCons(parse, line, Lines(scan, data));
      var call := parse(line);
      if call.None? { continue; }
      assert named[|passed|] == call.value;
      var verdict := hook(call.value);
      if verdict.Some? { return Some((call.value, verdict.value)), passed; }
      LetPassSnoc(hook, passed, call.value);
      passed := passed + [call.value];
    }
  }

  /** One payload and the bytes after it, or nothing at a flush and at bytes that are no pkt-line. */
  method NextLine(scan: Scan, data: string) returns (next: Option<(string, string)>)
    ensures match next
            case None => Lines(scan, data) == []
            case Some((line, rest)) => |rest| < |data| && Lines(scan, data) == [line] + Lines(scan, rest)
  {
    if |data| < 4 { return None; }
    var scanned := scan(data[..4]);
    if scanned.None? { return None; }
    var length := scanned.value;
    if length == 0 { return None; }
    if length < 4 || length > |data| { return None; }
    next := Some((data[4..length], data[length..]));
  }

  lemma CallsCons(parse: Parse, payload: string, rest: seq<string>)
    ensures CallsOf(parse, [payload] + rest)
            == match parse(payload) case None => CallsOf(parse, rest) case Some(c) => [c] + CallsOf(parse, rest)
  {
    assert ([payload] + rest)[1..] == rest;
  }

  /**
   * The part of handleReceivePack around the check: a refusal is answered with its reason, and only a body whose
   * every branch update was let pass reaches git, byte for byte.
   */
  method ReceivePack(scan: Scan, hook: Option<Hook>, body: string) returns (toGit: Option<string>, reply: string)
    ensures toGit.Some? ==> toGit.value == body && reply == ""
    ensures toGit.Some? <==> hook.None? || LetPass(hook.value, CallsOf(CALL_OF, Lines(scan, body)))
    ensures toGit.None? ==>
              exists call, reason ::
                && call in CallsOf(CALL_OF, Lines(scan, body)) && hook.value(call) == Some(reason)
                && reply == Pkts(["unpack ok\n", "ng refs/heads/protected " + reason + "\n"]) + "0000"
  {
    if hook.None? { return Some(body), ""; }
    var refusal, passed := CheckPreReceive(scan, CALL_OF, hook.value, body);
    if refusal.Some? {
      reply := WritePktError(refusal.value.1);
      toGit := None;
    } else {
      toGit, reply := Some(body), "";
    }
  }

  // ---------------------------------------------------------------- what a push contains

  /** A push names shallow commits and ref updates; the first update carries the client's capabilities. */
  datatype Update = Update(oldSha: string, newSha: string, ref: string)

  ghost predicate IsName(s: string) { forall i :: 0 <= i < |s| ==> s[i] != ' ' && s[i] != NUL && s[i] != '\n' }

  /** A ref name may hold spaces here, but no control bytes that frame the line. */
  ghost predicate IsUpdate(u: Update) {
    && IsName(u.oldSha) && IsName(u.newSha)
    && forall i :: 0 <= i < |u.ref| ==> u.ref[i] != NUL && u.ref[i] != '\n'
  }

  function Line(u: Update): string { u.oldSha + " " + u.newSha + " " + u.ref }

  function Ending(lf: bool): string { if lf then "\n" else "" }

  /** Only the first update carries capabilities; the line feed is optional. */
  function Payloads(updates: seq<Update>, capabilities: string, lf: bool): seq<string> {
    if updates == [] then []
    else [Line(updates[0]) + [NUL] + capabilities + Ending(lf)] + Plain(updates[1..], lf)
  }

  function Plain(updates: seq<Update>, lf: bool): seq<string> {
    if updates == [] then [] else [Line(updates[0]) + Ending(lf)] + Plain(updates[1..], lf)
  }

  function Shallows(ids: seq<string>, lf: bool): seq<string> {
    if ids == [] then [] else ["shallow " + ids[0] + Ending(lf)] + Shallows(ids[1..], lf)
  }

  /** The branch updates, as the hook should see them. */
  function BranchUpdates(updates: seq<Update>): seq<Call> {
    if updates == [] then []
    else
      var u := updates[0];
      (if StartsWith(u.ref, HEADS) then [Call(u.ref[|HEADS|..], u.oldSha, u.newSha)] else [])
      + BranchUpdates(updates[1..])
  }

  /** Exactly the refs "refs/heads/b" are branches, each shown to the hook as b with the two hashes in their order. */
  lemma BranchUpdatesAre(u: Update)
    ensures forall b :: u.ref == "refs/heads/" + b ==> BranchUpdates([u]) == [Call(b, u.oldSha, u.newSha)]
    ensures (forall b :: u.ref != "refs/heads/" + b) ==> BranchUpdates([u]) == []
  {
    if StartsWith(u.ref, HEADS) {
      assert u.ref == "refs/heads/" + u.ref[|HEADS|..];
    }
    forall b | u.ref == "refs/heads/" + b ensures StartsWith(u.ref, HEADS) && u.ref[|HEADS|..] == b {
      assert u.ref[..|HEADS|] == HEADS;
    }
  }

  lemma TrimEnding(line: string, lf: bool)
    requires forall i :: 0 <= i < |line| ==> line[i] != '\n'
    ensures TrimNewlines(line + Ending(lf)) == line
  {
    if lf {
      assert (line + "\n")[..|line|] == line;
      assert TrimNewlines(line + "\n") == TrimNewlines(line);
    } else {
      assert line + "" == line;
    }
  }

  lemma LineHasNoFrame(u: Update)
    requires IsUpdate(u)
    ensures forall i :: 0 <= i < |Line(u)| ==> Line(u)[i] != NUL && Line(u)[i] != '\n'
  {
  }

  lemma FieldsOfLine(u: Update)
    requires IsUpdate(u)
    ensures SplitOnce(Line(u), ' ') == (u.oldSha, Some(u.newSha + " " + u.ref))
    ensures SplitOnce(u.newSha + " " + u.ref, ' ') == (u.newSha, Some(u.ref))
  {
    assert Line(u) == u.oldSha + [' '] + (u.newSha + " " + u.ref);
    SplitOnceAt(u.oldSha, u.newSha + " " + u.ref, ' ');
    SplitOnceAt(u.newSha, u.ref, ' ');
  }

  lemma CallOfUpdate(u: Update, payload: string)
    requires IsUpdate(u) && TrimNewlines(SplitOnce(payload, NUL).0) == Line(u)
    ensures CallOf(payload)
         == if StartsWith(u.ref, HEADS) then Some(Call(u.ref[|HEADS|..], u.oldSha, u.newSha)) else None
  {
    FieldsOfLine(u);
  }

  lemma CallOfFirst(u: Update, capabilities: string, lf: bool)
    requires IsUpdate(u)
    ensures CallsOf(CALL_OF, [Line(u) + [NUL] + capabilities + Ending(lf)]) == BranchUpdates([u])
  {
    var payload := Line(u) + [NUL] + capabilities + Ending(lf);
    LineHasNoFrame(u);
    assert payload == Line(u) + [NUL] + (capabilities + Ending(lf));
    SplitOnceAt(Line(u), capabilities + Ending(lf), NUL);
    assert Line(u) + "" == Line(u);
    TrimEnding(Line(u), false);
    CallOfUpdate(u, payload);
  }

  lemma CallOfPlain(u: Update, lf: bool)
    requires IsUpdate(u)
    ensures CallsOf(CALL_OF, [Line(u) + Ending(lf)]) == BranchUpdates([u])
  {
    var payload := Line(u) + Ending(lf);
    LineHasNoFrame(u);
    SplitOnceNowhere(payload, NUL);
    TrimEnding(Line(u), lf);
    CallOfUpdate(u, payload);
  }

  lemma {:induction false} CallsAppend(parse: Parse, a: seq<string>, b: seq<string>)
    ensures CallsOf(parse, a + b) == CallsOf(parse, a) + CallsOf(parse, b)
  {
    if a == [] {
      assert a + b == b;
    } else {
      assert (a + b)[1..] == a[1..] + b;
      CallsAppend(parse, a[1..], b);
    }
  }

  lemma BranchUpdatesCons(updates: seq<Update>)
    requires updates != []
    ensures BranchUpdates(updates) == BranchUpdates([updates[0]]) + BranchUpdates(updates[1..])
  {
  }

  lemma {:induction false} CallsOfPlain(updates: seq<Update>, lf: bool)
    requires forall i :: 0 <= i < |updates| ==> IsUpdate(updates[i])
    ensures CallsOf(CALL_OF, Plain(updates, lf)) == BranchUpdates(updates)
  {
    if updates != [] {
      CallOfPlain(updates[0], lf);
      CallsOfPlain(updates[1..], lf);
      CallsAppend(CALL_OF, [Line(updates[0]) + Ending(lf)], Plain(updates[1..], lf));
      BranchUpdatesCons(updates);
    }
  }

  lemma {:induction false} CallsOfShallows(ids: seq<string>, lf: bool)
    requires forall i :: 0 <= i < |ids| ==> IsName(ids[i])
    ensures CallsOf(CALL_OF, Shallows(ids, lf)) == []
  {
    if ids != [] {
      var line := "shallow " + ids[0];
      var payload := line + Ending(lf);
      SplitOnceNowhere(payload, NUL);
      TrimEnding(line, lf);
      assert line == "shallow" + [' '] + ids[0];
      SplitOnceAt("shallow", ids[0], ' ');
      SplitOnceNowhere(ids[0], ' ');
      assert CallOf(payload) == None;
      CallsOfShallows(ids[1..], lf);
    }
  }

  lemma CallsOfPayloads(updates: seq<Update>, capabilities: string, lf: bool)
    requires forall i :: 0 <= i < |updates| ==> IsUpdate(updates[i])
    ensures CallsOf(CALL_OF, Payloads(updates, capabilities, lf)) == BranchUpdates(updates)
  {
    if updates != [] {
      CallOfFirst(updates[0], capabilities, lf);
      CallsOfPlain(updates[1..], lf);
      CallsAppend(CALL_OF, [Line(updates[0]) + [NUL] + capabilities + Ending(lf)], Plain(updates[1..], lf));
      BranchUpdatesCons(updates);
    }
  }

  /**
   * Every push is checked: whatever the pack that follows the flush, the updates the check calls the hook with
   * are exactly the push's branch updates, in order.
   */
  lemma PushIsChecked(scan: Scan, shallow: seq<string>, updates: seq<Update>, capabilities: string, lf: bool,
                      pack: string)
    requires ScansHex(scan)
    requires forall i :: 0 <= i < |shallow| ==> IsName(shallow[i])
    requires forall i :: 0 <= i < |updates| ==> IsUpdate(updates[i])
    requires AllFit(Shallows(shallow, lf) + Payloads(updates, capabilities, lf))
    ensures var body := Pkts(Shallows(shallow, lf) + Payloads(updates, capabilities, lf)) + (FLUSH + pack);
            CallsOf(CALL_OF, Lines(scan, body)) == BranchUpdates(updates)
  {
    LinesOfPkts(scan, Shallows(shallow, lf) + Payloads(updates, capabilities, lf), pack);
    CallsAppend(CALL_OF, Shallows(shallow, lf), Payloads(updates, capabilities, lf));
    CallsOfShallows(shallow, lf);
    CallsOfPayloads(updates, capabilities, lf);
  }

  // ---------------------------------------------------------------- what the server prints

  const UNPACK := "unpack ok\n"

  function NgLine(message: string): string { "ng refs/heads/protected " + message + "\n" }

  /** writePktError. */
  method WritePktError(message: string) returns (w: string)
    ensures w == Pkts(["unpack ok\n", "ng refs/heads/protected " + message + "\n"]) + "0000"
  {
    w := Hex4(|UNPACK| + 4) + UNPACK;
    var ngLine := NgLine(message);
    w := w + (Hex4(|ngLine| + 4) + ngLine);
    w := w + FLUSH;
    TwoPkts(UNPACK, ngLine);
  }

  lemma TwoPkts(a: string, b: string)
    ensures Pkts([a, b]) == Pkt(a) + Pkt(b)
  {
    assert [a, b][1..] == [b];
    assert Pkts([b]) == Pkt(b) + Pkts([b][1..]) && Pkt(b) + "" == Pkt(b);
  }

  /** A refusal reaches the client as two lines exactly when its message leaves room in one pkt-line. */
  lemma ReplyReadsBackIff(scan: Scan, message: string)
    requires ScansHex(scan)
    ensures var lines := ["unpack ok\n", "ng refs/heads/protected " + message + "\n"];
            Lines(scan, Pkts(lines) + "0000") == lines <==> |message| <= 65506
  {
    var ng := NgLine(message);
    var tail := Pkt(ng) + FLUSH;
    assert |ng| == |message| + 25;
    assert Pkts([ng]) == Pkt(ng) + Pkts([]) == Pkt(ng);
    assert Pkts([UNPACK, ng]) + FLUSH == Pkt(UNPACK) + tail;
    PktReadsBackIff(scan, UNPACK, tail);
    FlushEnds(scan, "");
    assert FLUSH + "" == FLUSH;
    PktReadsBackIff(scan, ng, FLUSH);
    assert [ng] + [] == [ng];
  }

  /** The head of an advertisement, as handleInfoRefs writes it before the output of git. */
  method WriteInfoRefs(service: string, output: string) returns (w: string)
    ensures w == Pkts(["# service=" + service + "\n"]) + ("0000" + output)
  {
    var header := "# service=" + service + "\n";
    w := Hex4(|header| + 4) + header;
    w := w + FLUSH;
    w := w + output;
    assert Pkts([header]) == Pkt(header) + Pkts([]);
  }

  /** For both services, the head reads back as the service line and a flush, whatever git advertises. */
  lemma InfoRefsReadsBack(scan: Scan, service: string, output: string)
    requires ScansHex(scan) && (service == "git-upload-pack" || service == "git-receive-pack")
    ensures var lines := ["# service=" + service + "\n"];
            Lines(scan, Pkts(lines) + ("0000" + output)) == lines
  {
    LinesOfPkts(scan, ["# service=" + service + "\n"], output);
  }
}
