/**
 * Server-sent events of the chat: the writer (internal/api/handlers/chat.go, sseWrite), the order of events one
 * message produces (SendMessage, streamLLMResponse) and the client's incremental reader
 * (web/src/components/ChatPanel.tsx, handleSend). Framing follows section 9.2 of the HTML Living Standard.
 *
 * Text is a sequence of characters; how bytes become characters is not modelled.
 */
module Sse {
  import opened Common
  import opened Text

  datatype Event = Event(name: string, data: string)

  predicate IsEvent(e: Event) { IsLine(e.name) && IsLine(e.data) }

  /** What a reader sees between two blank lines. */
  function Piece(e: Event): string {
    "event: " + e.name + "\n" + "data: " + e.data
  }

  /** sseWrite: one event and the blank line that ends it. */
  function Written(e: Event): string {
    Piece(e) + "\n\n"
  }

  function StreamText(events: seq<Event>): string {
    if events == [] then "" else Written(events[0]) + StreamText(events[1..])
  }

  // ---------------------------------------------------------------- one event

  /** The last "event: " line and the last "data: " line count. */
  function ReadLines(lines: seq<string>, e: Event): Event
    decreases |lines|
  {
    if lines == [] then e
    else
      var e' := ReadLines(lines[..|lines| - 1], e);
      ReadLine(lines[|lines| - 1], e')
  }

  function ReadLine(line: string, e: Event): Event {
    Event(if StartsWith(line, "event: ") then line[7..] else e.name,
          if StartsWith(line, "data: ") then line[6..] else e.data)
  }

  function ReadPiece(piece: string): Event {
    ReadLines(Split(piece, "\n"), Event("", ""))
  }

  /** A blank piece is skipped. */
  function ReadIfAny(piece: string): seq<Event> {
    if IsBlank(piece) then [] else [ReadPiece(piece)]
  }

  const READ: string -> seq<Event> := piece => ReadIfAny(piece)

  function ReadPieces(pieces: seq<string>): seq<Event> {
    FlatMap(READ, pieces)
  }

  lemma PieceSplits(name: string, data: string)
    requires IsLine(name) && IsLine(data)
    ensures Split(name + "\n" + data, "\n") == [name, data]
  {
    var s := name + "\n" + data;
    LineEnds(name, data);
    SplitCons(s, "\n", |name|);
    assert s[..|name|] == name && s[|name| + 1..] == data;
    NoNewline(data);
    SplitNone(data, "\n");
  }

  lemma TwoLines(name: string, data: string, e: Event)
    ensures ReadLines([name, data], e) == ReadLine(data, ReadLine(name, e))
  {
    assert [name, data][..1] == [name] && [name][..0] == [];
    assert ReadLines([], e) == e;
    assert ReadLines([name], e) == ReadLine(name, e);
  }

  lemma NameLine(name: string)
    ensures ReadLine("event: " + name, Event("", "")) == Event(name, "")
  {
    var line := "event: " + name;
    assert line[7..] == name;
    assert line[0] == 'e';
  }

  lemma DataLine(name: string, data: string)
    ensures ReadLine("data: " + data, Event(name, "")) == Event(name, data)
  {
    var line := "data: " + data;
    assert line[6..] == data;
    assert line[0] == 'd';
  }

  lemma PieceReads(e: Event)
    requires IsEvent(e)
    ensures READ(Piece(e)) == [e]
  {
    var name, data := "event: " + e.name, "data: " + e.data;
    assert Piece(e) == name + "\n" + data;
    PieceSplits(name, data);
    TwoLines(name, data, Event("", ""));
    NameLine(e.name);
    DataLine(e.name, e.data);
    assert !IsSpace(Piece(e)[0]);
  }

  lemma TwoNewlines(s: string, j: nat)
    ensures At(s, "\n\n", j) ==> s[j] == '\n' && s[j + 1] == '\n'
  {
    if At(s, "\n\n", j) { assert s[j..j + 2][0] == s[j] && s[j..j + 2][1] == s[j + 1]; }
  }

  /** The blank line after an event is the first one. */
  lemma PieceEnds(e: Event, rest: string)
    requires IsEvent(e)
    ensures FirstAt(Written(e) + rest, "\n\n") == Some(|Piece(e)|)
  {
    var s := Written(e) + rest;
    var n := |Piece(e)|;
    var nameEnd := 7 + |e.name|;
    assert s[n..n + 2] == "\n\n";
    forall j | 0 <= j < n ensures !At(s, "\n\n", j) {
      assert s[j] == Piece(e)[j];
      TwoNewlines(s, j);
      if j == nameEnd {
        assert s[j + 1] == 'd';
      } else if j < nameEnd {
        assert Piece(e)[j] == ("event: " + e.name)[j] != '\n';
      } else {
        assert Piece(e)[j] == ("data: " + e.data)[j - nameEnd - 1] != '\n';
      }
    }
    FirstAtUnique(s, "\n\n", n);
  }

  function Pieces(events: seq<Event>): seq<string> {
    if events == [] then [] else [Piece(events[0])] + Pieces(events[1..])
  }

  lemma EventSplits(e: Event, rest: string)
    requires IsEvent(e)
    ensures Split(Written(e) + rest, "\n\n") == [Piece(e)] + Split(rest, "\n\n")
  {
    PieceEnds(e, rest);
    var s := Written(e) + rest;
    SplitCons(s, "\n\n", |Piece(e)|);
    assert s[..|Piece(e)|] == Piece(e);
    assert s[|Piece(e)| + 2..] == rest;
  }

  lemma {:induction false} TextSplits(events: seq<Event>)
    requires forall i :: 0 <= i < |events| ==> IsEvent(events[i])
    ensures Split(StreamText(events), "\n\n") == Pieces(events) + [""]
  {
    if events == [] {
      FirstAtNone("", "\n\n");
      SplitNone("", "\n\n");
    } else {
      EventSplits(events[0], StreamText(events[1..]));
      TextSplits(events[1..]);
      assert [Piece(events[0])] + (Pieces(events[1..]) + [""]) == [Piece(events[0])] + Pieces(events[1..]) + [""];
    }
  }

  lemma {:induction false} PiecesRead(events: seq<Event>)
    requires forall i :: 0 <= i < |events| ==> IsEvent(events[i])
    ensures ReadPieces(Pieces(events)) == events
  {
    if events != [] {
      PieceReads(events[0]);
      PiecesRead(events[1..]);
      FlatMapCons(READ, Piece(events[0]), Pieces(events[1..]));
      assert [events[0]] + events[1..] == events;
    }
  }

  // ---------------------------------------------------------------- the read loop

  predicate IsDone(e: Event) { e.name == "done" }

  /** A "done" event ends the handling of the chunk it came in. */
  function UpToDone(events: seq<Event>): seq<Event> {
    if events == [] then []
    else if IsDone(events[0]) then [events[0]]
    else [events[0]] + UpToDone(events[1..])
  }

  /** The complete pieces a run of chunks yields, and the remainder left in the buffer. */
  function Received(buffer: string, chunks: seq<string>): (seq<string>, string)
    decreases |chunks|
  {
    if chunks == [] then ([], buffer)
    else
      var parts := Split(buffer + chunks[0], "\n\n");
      var (more, rest) := Received(Last(parts), chunks[1..]);
      (Init(parts) + more, rest)
  }

  /** The events the client handles, chunk by chunk. */
  function Handled(buffer: string, chunks: seq<string>): seq<Event>
    decreases |chunks|
  {
    if chunks == [] then []
    else
      var parts := Split(buffer + chunks[0], "\n\n");
      UpToDone(ReadPieces(Init(parts))) + Handled(Last(parts), chunks[1..])
  }

  lemma SplitReceived(text: string, later: string, more: seq<string>, rest: string)
    requires more + [rest] == Split(Last(Split(text, "\n\n")) + later, "\n\n")
    ensures (Init(Split(text, "\n\n")) + more) + [rest] == Split(text + later, "\n\n")
  {
    SplitAppend(text, later, "\n\n");
    Regroup(Init(Split(text, "\n\n")), more, rest);
  }

  lemma ReceivedCons(buffer: string, chunks: seq<string>)
    requires chunks != []
    ensures var parts := Split(buffer + chunks[0], "\n\n");
            var (more, rest) := Received(Last(parts), chunks[1..]);
            Received(buffer, chunks) == (Init(parts) + more, rest)
  {
  }

  /** Whatever the cuts, the pieces and the remainder are those of the whole text. */
  lemma {:induction false} ReceivedIsSplit(buffer: string, chunks: seq<string>)
    requires FirstAt(buffer, "\n\n") == None
    ensures Received(buffer, chunks).0 + [Received(buffer, chunks).1] == Split(buffer + Concat(chunks), "\n\n")
    decreases |chunks|
  {
    if chunks == [] {
      assert buffer + "" == buffer;
      SplitNone(buffer, "\n\n");
    } else {
      var text, later := buffer + chunks[0], Concat(chunks[1..]);
      LastHasNone(text);
      var r := Received(Last(Split(text, "\n\n")), chunks[1..]);
      ReceivedIsSplit(Last(Split(text, "\n\n")), chunks[1..]);
      ReceivedCons(buffer, chunks);
      SplitReceived(text, later, r.0, r.1);
      WholeText(buffer, chunks);
    }
  }

  lemma WholeText(buffer: string, chunks: seq<string>)
    requires chunks != []
    ensures buffer + Concat(chunks) == (buffer + chunks[0]) + Concat(chunks[1..])
  {
  }

  lemma Regroup(a: seq<string>, b: seq<string>, c: string)
    ensures a + (b + [c]) == (a + b) + [c]
  {
  }

  /** What is carried over holds no separator. */
  lemma {:induction false} LastHasNone(s: string)
    ensures FirstAt(Last(Split(s, "\n\n")), "\n\n") == None
    decreases |s|
  {
    match FirstAt(s, "\n\n") {
      case None => SplitNone(s, "\n\n");
      case Some(i) =>
        SplitCons(s, "\n\n", i);
        LastHasNone(s[i + 2..]);
        InitLastCons(s[..i], Split(s[i + 2..], "\n\n"));
    }
  }

  /** No event comes after a "done". */
  ghost predicate DoneOnlyLast(events: seq<Event>) {
    forall i :: 0 <= i < |events| - 1 ==> !IsDone(events[i])
  }

  lemma UpToDoneCons(e: Event, rest: seq<Event>)
    ensures UpToDone([e] + rest) == if IsDone(e) then [e] else [e] + UpToDone(rest)
  {
    assert ([e] + rest)[1..] == rest;
  }

  lemma {:induction false} UpToDoneAll(events: seq<Event>)
    requires DoneOnlyLast(events)
    ensures UpToDone(events) == events
  {
    if events != [] {
      var e, rest := events[0], events[1..];
      assert events == [e] + rest;
      UpToDoneCons(e, rest);
      DoneOnlyLastParts([e], rest);
      UpToDoneAll(rest);
    }
  }

  lemma {:induction false} HandledIsReceived(buffer: string, chunks: seq<string>)
    requires DoneOnlyLast(ReadPieces(Received(buffer, chunks).0))
    ensures Handled(buffer, chunks) == ReadPieces(Received(buffer, chunks).0)
    decreases |chunks|
  {
    if chunks != [] {
      var parts := Split(buffer + chunks[0], "\n\n");
      var a, b := Init(parts), Received(Last(parts), chunks[1..]).0;
      FlatMapAppend(READ, a, b);
      DoneOnlyLastParts(ReadPieces(a), ReadPieces(b));
      UpToDoneAll(ReadPieces(a));
      HandledIsReceived(Last(parts), chunks[1..]);
    }
  }

  lemma DoneOnlyLastParts(a: seq<Event>, b: seq<Event>)
    requires DoneOnlyLast(a + b)
    ensures DoneOnlyLast(a) && DoneOnlyLast(b)
  {
    assert forall i :: 0 <= i < |a| ==> (a + b)[i] == a[i];
    assert forall i :: 0 <= i < |b| ==> (a + b)[|a| + i] == b[i];
  }

  /** However the text is cut into chunks, the client handles exactly the events written, in order. */
  lemma AnyCutSameEvents(events: seq<Event>, chunks: seq<string>)
    requires forall i :: 0 <= i < |events| ==> IsEvent(events[i])
    requires DoneOnlyLast(events)
    requires Concat(chunks) == StreamText(events)
    ensures Handled("", chunks) == events
    ensures Received("", chunks).1 == ""
  {
    TextSplits(events);
    PiecesRead(events);
    FirstAtNone("", "\n\n");
    ReceivedIsSplit("", chunks);
    assert "" + Concat(chunks) == StreamText(events);
    SnocEqual(Received("", chunks).0, Received("", chunks).1, Pieces(events), "");
    HandledIsReceived("", chunks);
  }

  lemma SnocEqual(a: seq<string>, x: string, b: seq<string>, y: string)
    requires a + [x] == b + [y]
    ensures a == b && x == y
  {
    assert Init(a + [x]) == a && Init(b + [y]) == b;
    assert Last(a + [x]) == x && Last(b + [y]) == y;
  }

  lemma {:induction false} UpToDoneOnly(events: seq<Event>)
    requires UpToDone(events) == events
    ensures DoneOnlyLast(events)
  {
    if events != [] && !IsDone(events[0]) {
      assert [events[0]] + events[1..] == events;
      assert UpToDone(events[1..]) == UpToDone(events)[1..];
      UpToDoneOnly(events[1..]);
      assert forall i :: 0 < i < |events| - 1 ==> events[i] == events[1..][i - 1];
    }
  }

  /** The events handled are independent of the cuts exactly when "done" is at most the last one. */
  lemma CutsDoNotMatterIff(events: seq<Event>)
    requires forall i :: 0 <= i < |events| ==> IsEvent(events[i])
    ensures (forall chunks :: Concat(chunks) == StreamText(events) ==> Handled("", chunks) == events)
            <==> DoneOnlyLast(events)
  {
    if DoneOnlyLast(events) {
      forall chunks | Concat(chunks) == StreamText(events) ensures Handled("", chunks) == events {
        AnyCutSameEvents(events, chunks);
      }
    } else {
      var whole := [StreamText(events)];
      assert Concat(whole) == StreamText(events);
      TextSplits(events);
      PiecesRead(events);
      assert "" + whole[0] == StreamText(events);
      assert Init(Pieces(events) + [""]) == Pieces(events);
      assert Handled("", whole) == UpToDone(events) + Handled("", whole[1..]);
      if UpToDone(events) == events { UpToDoneOnly(events); }
      assert Handled("", whole) != events;
    }
  }

  // ---------------------------------------------------------------- what the client shows

  /** The payloads the server sends, as JSON values. */
  datatype Value =
    | Message(content: string)
    | Content(text: string)
    | Files(names: seq<string>)
    | Problem(message: string)
    | Nothing

  /** JSON: encoding/json on one side, JSON.parse on the other. */
  datatype Codec = Codec(marshal: Value -> string, parse: string -> Option<Value>)

  ghost predicate IsCodec(codec: Codec) {
    forall v :: codec.parse(codec.marshal(v)) == Some(v) && IsLine(codec.marshal(v)) && codec.marshal(v) != ""
  }

  datatype View = View(streaming: string, optimistic: Option<string>, error: Option<string>)

  const EMPTY_VIEW := View("", None, None)

  function Join(names: seq<string>): string {
    if names == [] then ""
    else if |names| == 1 then names[0]
    else names[0] + ", " + Join(names[1..])
  }

  function Reading(names: seq<string>): string {
    "\n\n*Reading " + (if Join(names) == "" then "files" else Join(names)) + "...*\n\n"
  }

  /** The effect of one event on the view; a payload that does not parse is skipped. */
  function Shown(codec: Codec, view: View, e: Event): View {
    var value := if e.data == "" then None else codec.parse(e.data);
    if e.name == "user_message" then
      (if value.Some? && value.value.Message? then view.(optimistic := Some(value.value.content)) else view)
    else if e.name == "chunk" then
      (if value.Some? && value.value.Content? then view.(streaming := view.streaming + value.value.text) else view)
    else if e.name == "tool_call" then
      (if value.Some? && value.value.Files? then view.(streaming := view.streaming + Reading(value.value.names))
       else view)
    else if e.name == "clear_stream" then view.(streaming := "")
    else if e.name == "assistant_message" then view.(streaming := "", optimistic := None)
    else if e.name == "error" then
      (if value.Some? && value.value.Problem? then view.(error := Some(value.value.message)) else view)
    else view
  }

  /** What each event shows; a payload that does not parse shows nothing. */
  lemma EventsShow(codec: Codec, view: View, text: string, a: string, b: string)
    requires IsCodec(codec)
    ensures Shown(codec, view, Event("user_message", codec.marshal(Message(text)))) == view.(optimistic := Some(text))
    ensures Shown(codec, view, Event("chunk", codec.marshal(Content(text))))
         == view.(streaming := view.streaming + text)
    ensures Shown(codec, view, Event("tool_call", codec.marshal(Files([a, b]))))
         == view.(streaming := view.streaming + ("\n\n*Reading " + (a + ", " + b) + "...*\n\n"))
    ensures Shown(codec, view, Event("tool_call", codec.marshal(Files([]))))
         == view.(streaming := view.streaming + "\n\n*Reading files...*\n\n")
    ensures Shown(codec, view, Event("clear_stream", text)) == view.(streaming := "")
    ensures Shown(codec, view, Event("assistant_message", text)) == view.(streaming := "", optimistic := None)
    ensures Shown(codec, view, Event("error", codec.marshal(Problem(text)))) == view.(error := Some(text))
    ensures Shown(codec, view, Event("done", text)) == view
    ensures text == "" || codec.parse(text).None? ==>
              forall name :: name in ["user_message", "chunk", "tool_call", "error"] ==>
                Shown(codec, view, Event(name, text)) == view
  {
    JoinTwo(a, b);
    assert "\n\n*Reading files...*\n\n" == "\n\n*Reading " + "files" + "...*\n\n";
  }

  lemma JoinTwo(a: string, b: string)
    ensures Join([a, b]) == a + ", " + b && Join([a, b]) != ""
  {
    assert [a, b][1..] == [b];
    assert Join([b]) == b;
  }

  function ShownAll(codec: Codec, view: View, events: seq<Event>): View
    decreases |events|
  {
    if events == [] then view
    else Shown(codec, ShownAll(codec, view, events[..|events| - 1]), events[|events| - 1])
  }

  lemma ShownSnoc(codec: Codec, view: View, events: seq<Event>, e: Event)
    ensures ShownAll(codec, view, events + [e]) == Shown(codec, ShownAll(codec, view, events), e)
  {
    assert (events + [e])[..|events|] == events;
  }

  lemma {:induction false} ShownAppend(codec: Codec, view: View, a: seq<Event>, b: seq<Event>)
    ensures ShownAll(codec, view, a + b) == ShownAll(codec, ShownAll(codec, view, a), b)
    decreases |b|
  {
    if b == [] {
      assert a + b == a;
    } else {
      var init := b[..|b| - 1];
      assert a + b == (a + init) + [b[|b| - 1]];
      ShownSnoc(codec, view, a + init, b[|b| - 1]);
      ShownAppend(codec, view, a, init);
    }
  }

  lemma ReadNext(pieces: seq<string>, k: nat)
    requires k < |pieces|
    ensures ReadPieces(pieces[k..]) == ReadIfAny(pieces[k]) + ReadPieces(pieces[k + 1..])
  {
    assert pieces[k..] == [pieces[k]] + pieces[k + 1..];
    FlatMapCons(READ, pieces[k], pieces[k + 1..]);
  }

  lemma Shift(a: seq<Event>, e: Event, b: seq<Event>)
    ensures a + ([e] + b) == (a + [e]) + b
  {
  }

  lemma HandledNext(buffer: string, chunks: seq<string>, k: nat, before: seq<Event>)
    requires k < |chunks|
    ensures var parts := Split(buffer + chunks[k], "\n\n");
            before + Handled(buffer, chunks[k..])
            == (before + UpToDone(ReadPieces(Init(parts)))) + Handled(Last(parts), chunks[k + 1..])
  {
    assert chunks[k..][1..] == chunks[k + 1..];
    assert chunks[k..][0] == chunks[k];
  }

  class ChatPanel {
    const codec: Codec
    var view: View

    constructor (codec: Codec)
      ensures this.codec == codec && view == EMPTY_VIEW
    {
      this.codec := codec;
      view := EMPTY_VIEW;
    }

    /** The two prefixes looked for in every line of an event. */
    method ParseEvent(piece: string) returns (e: Event)
      ensures e == ReadPiece(piece)
    {
      var lines := Split(piece, "\n");
      var eventType, data := "", "";
      var k := 0;
      while k < |lines|
        invariant 0 <= k <= |lines|
        invariant Event(eventType, data) == ReadLines(lines[..k], Event("", ""))
      {
        assert lines[..k + 1][..k] == lines[..k];
        if StartsWith(lines[k], "event: ") { eventType := lines[k][7..]; }
        if StartsWith(lines[k], "data: ") { data := lines[k][6..]; }
        k := k + 1;
      }
      assert lines[..k] == lines;
      e := Event(eventType, data);
    }

    /** The inner loop: the complete events of one chunk, until a "done". */
    method HandleEvents(events: seq<string>)
      modifies this
      ensures view == ShownAll(codec, old(view), UpToDone(ReadPieces(events)))
    {
      ghost var handled: seq<Event> := [];
      var k := 0;
      while k < |events|
        invariant 0 <= k <= |events|
        invariant view == ShownAll(codec, old(view), handled)
        invariant handled + UpToDone(ReadPieces(events[k..])) == UpToDone(ReadPieces(events))
      {
        ghost var later := ReadPieces(events[k + 1..]);
        ReadNext(events, k);
        if IsBlank(events[k]) {
          assert ReadIfAny(events[k]) + later == later;
          k := k + 1;
          continue;
        }
        var e := ParseEvent(events[k]);
        UpToDoneCons(e, later);
        ShownSnoc(codec, old(view), handled, e);
        Shift(handled, e, UpToDone(later));
        handled := handled + [e];
        view := Shown(codec, view, e);
        if IsDone(e) { return; }
        k := k + 1;
      }
      assert handled + [] == handled;
    }

    /** The outer loop: each chunk is appended to the buffer, which keeps what follows the last separator. */
    method ReadStream(chunks: seq<string>)
      modifies this
      ensures view == ShownAll(codec, old(view), Handled("", chunks))
    {
      var buffer := "";
      ghost var handled: seq<Event> := [];
      var k := 0;
      while k < |chunks|
        invariant 0 <= k <= |chunks|
        invariant view == ShownAll(codec, old(view), handled)
        invariant handled + Handled(buffer, chunks[k..]) == Handled("", chunks)
      {
        HandledNext(buffer, chunks, k, handled);
        var events := Split(buffer + chunks[k], "\n\n");
        buffer := Last(events);
        events := Init(events);
        ShownAppend(codec, old(view), handled, UpToDone(ReadPieces(events)));
        handled := handled + UpToDone(ReadPieces(events));
        HandleEvents(events);
        k := k + 1;
      }
      assert handled + [] == handled;
    }
  }

  // ---------------------------------------------------------------- what the server sends

  lemma {:induction false} TextSnoc(events: seq<Event>, e: Event)
    ensures StreamText(events + [e]) == StreamText(events) + Written(e)
  {
    if events == [] {
      assert events + [e] == [e];
    } else {
      assert (events + [e])[1..] == events[1..] + [e];
      TextSnoc(events[1..], e);
    }
  }

  lemma OneText(name: string, data: string)
    ensures Written(Event(name, data)) == "event: " + name + "\ndata: " + data + "\n\n"
  {
    assert "\n" + "data: " == "\ndata: ";
  }

  lemma ConcatNext(before: string, chunks: seq<string>, k: nat)
    requires k < |chunks|
    ensures before + Concat(chunks[k..]) == (before + chunks[k]) + Concat(chunks[k + 1..])
    ensures chunks[k] == "" ==> before + chunks[k] == before
  {
    assert chunks[k..][1..] == chunks[k + 1..];
  }

  lemma JoinTexts(a: string, b: string, c: string)
    ensures (a + b) + c == a + (b + c)
  {
  }

  /** The language model, the database and the tag parser, as far as one message depends on them. */
  datatype World = World(
    historyLoads: bool,
    hasModel: bool,
    generate: nat -> Option<seq<string>>,
    requestedFiles: string -> seq<string>,
    stripTags: string -> string,
    saves: bool)

  const MAX_TOOL_ITERATIONS: nat := 5

  const APOLOGY :=
    "I'm sorry, I was unable to generate a response. The AI provider may be unavailable. Please try again later."
  const NOT_CONFIGURED := "The AI assistant is not configured. "
    + "Please configure an LLM provider in your Gitwise settings to enable chat."

  /**
   * Text `i` is what the model generated then, or an apology if the first generation failed; unless it is the last, it
   * came through and asked for files.
   */
  ghost predicate IsAnswer(world: World, answers: seq<string>, i: nat) {
    && i < |answers|
    && answers[i] == (match world.generate(i)
                      case Some(chunks) => Concat(chunks)
                      case None => if i == 0 then APOLOGY else "")
    && (i < |answers| - 1 ==> world.requestedFiles(answers[i]) != [] && (i > 0 ==> world.generate(i).Some?))
  }

  ghost predicate AreAnswers(world: World, answers: seq<string>) {
    forall i: nat :: i < |answers| ==> IsAnswer(world, answers, i)
  }

  lemma AnswersSnoc(world: World, answers: seq<string>, content: string)
    requires AreAnswers(world, answers) && answers != []
    requires content == match world.generate(|answers|) case Some(chunks) => Concat(chunks) case None => ""
    requires world.requestedFiles(answers[|answers| - 1]) != []
    requires |answers| > 1 ==> world.generate(|answers| - 1).Some?
    ensures AreAnswers(world, answers + [content])
  {
    forall i: nat | i < |answers| + 1 ensures IsAnswer(world, answers + [content], i) {
      if i < |answers| { assert IsAnswer(world, answers, i); }
    }
  }

  /** Only events other than "done" were added. */
  ghost predicate IsExtension(before: seq<Event>, events: seq<Event>) {
    && |before| <= |events| && events[..|before|] == before
    && forall i :: |before| <= i < |events| ==> !IsDone(events[i])
  }

  lemma ExtensionTrans(a: seq<Event>, b: seq<Event>, c: seq<Event>)
    requires IsExtension(a, b) && IsExtension(b, c)
    ensures IsExtension(a, c)
  {
    assert c[..|a|] == c[..|b|][..|a|];
    assert forall i :: |a| <= i < |b| ==> c[i] == c[..|b|][i] == b[i];
  }

  lemma ClosedStream(before: seq<Event>, events: seq<Event>)
    requires |events| == |before| + 2 && before == events[..|before|]
    requires forall i :: 0 <= i < |before| ==> !IsDone(before[i])
    requires !IsDone(events[|before|])
    ensures DoneOnlyLast(events)
  {
    assert forall i :: 0 <= i < |before| ==> events[i] == before[i];
  }

  class ChatHandler {
    const codec: Codec
    var out: string
    ghost var events: seq<Event>

    ghost predicate Valid() reads this {
      && IsCodec(codec)
      && out == StreamText(events)
      && forall i :: 0 <= i < |events| ==> IsEvent(events[i])
    }

    /** What a client that has read everything so far shows. */
    ghost function Display(): View reads this {
      ShownAll(codec, EMPTY_VIEW, events)
    }

    constructor (codec: Codec)
      requires IsCodec(codec)
      ensures Valid() && this.codec == codec && out == "" && events == []
    {
      this.codec := codec;
      out, events := "", [];
    }

    method SseWrite(name: string, value: Value)
      requires Valid() && IsLine(name)
      modifies this
      ensures Valid() && events == old(events) + [Event(name, codec.marshal(value))]
      ensures out == old(out) + ("event: " + name + "\ndata: " + codec.marshal(value) + "\n\n")
    {
      var e := Event(name, codec.marshal(value));
      TextSnoc(events, e);
      OneText(name, codec.marshal(value));
      out := out + ("event: " + name + "\ndata: " + codec.marshal(value) + "\n\n");
      events := events + [e];
    }

    method SendChunk(content: string)
      requires Valid()
      modifies this
      ensures Valid() && Extends(old(events))
      ensures Display() == old(Display()).(streaming := old(Display()).streaming + content)
    {
      ShownSnoc(codec, EMPTY_VIEW, events, Event("chunk", codec.marshal(Content(content))));
      SseWrite("chunk", Content(content));
    }

    /** "tool_call" shows which files are read, and "clear_stream" withdraws what was streamed. */
    method Withdraw(files: seq<string>)
      requires Valid()
      modifies this
      ensures Valid() && Extends(old(events)) && Display() == old(Display()).(streaming := "")
      ensures events == old(events) + [Event("tool_call", codec.marshal(Files(files))),
                                       Event("clear_stream", codec.marshal(Nothing))]
    {
      ShownSnoc(codec, EMPTY_VIEW, events, Event("tool_call", codec.marshal(Files(files))));
      SseWrite("tool_call", Files(files));
      ShownSnoc(codec, EMPTY_VIEW, events, Event("clear_stream", codec.marshal(Nothing)));
      SseWrite("clear_stream", Nothing);
    }

    method SendUserMessage(content: string)
      requires Valid()
      modifies this
      ensures Valid() && events == old(events) + [Event("user_message", codec.marshal(Message(content)))]
      ensures Extends(old(events)) && Display() == old(Display()).(optimistic := Some(content))
    {
      ShownSnoc(codec, EMPTY_VIEW, events, Event("user_message", codec.marshal(Message(content))));
      SseWrite("user_message", Message(content));
    }

    /** "error" and "done", the end of a reply that failed. */
    method Fail(message: string)
      requires Valid()
      modifies this
      ensures Valid() && Closes(old(events)) && Display() == old(Display()).(error := Some(message))
      ensures events == old(events) + [Event("error", codec.marshal(Problem(message))),
                                       Event("done", codec.marshal(Nothing))]
    {
      ShownSnoc(codec, EMPTY_VIEW, events, Event("error", codec.marshal(Problem(message))));
      SseWrite("error", Problem(message));
      ShownSnoc(codec, EMPTY_VIEW, events, Event("done", codec.marshal(Nothing)));
      SseWrite("done", Nothing);
    }

    /** "assistant_message" and "done", the end of a reply that was saved. */
    method Finish(content: string)
      requires Valid()
      modifies this
      ensures Valid() && Closes(old(events))
      ensures events == old(events) + [Event("assistant_message", codec.marshal(Message(content))),
                                       Event("done", codec.marshal(Nothing))]
      ensures Display() == old(Display()).(streaming := "", optimistic := None)
    {
      ShownSnoc(codec, EMPTY_VIEW, events, Event("assistant_message", codec.marshal(Message(content))));
      SseWrite("assistant_message", Message(content));
      ShownSnoc(codec, EMPTY_VIEW, events, Event("done", codec.marshal(Nothing)));
      SseWrite("done", Nothing);
    }

    /** Two events were added since `before`, the second the only "done". */
    ghost predicate Closes(before: seq<Event>) reads this {
      && |events| == |before| + 2 && before == events[..|before|]
      && !IsDone(events[|before|]) && IsDone(events[|before| + 1])
    }

    /** Events were only added since `before`, none of them a "done". */
    ghost predicate Extends(before: seq<Event>) reads this {
      IsExtension(before, events)
    }

    /** One generation: what it streams is what it returns, and what the client shows grows by just that. */
    method StreamLLMResponse(chunks: seq<string>) returns (accumulated: string)
      requires Valid()
      modifies this
      ensures Valid() && Extends(old(events)) && accumulated == Concat(chunks)
      ensures Display() == old(Display()).(streaming := old(Display()).streaming + accumulated)
    {
      accumulated := "";
      ghost var view := Display();
      var k := 0;
      while k < |chunks|
        invariant 0 <= k <= |chunks|
        invariant Valid() && Extends(old(events))
        invariant accumulated + Concat(chunks[k..]) == Concat(chunks)
        invariant Display() == view.(streaming := view.streaming + accumulated)
      {
        ConcatNext(accumulated, chunks, k);
        if chunks[k] != "" {
          JoinTexts(view.streaming, accumulated, chunks[k]);
          accumulated := accumulated + chunks[k];
          SendChunk(chunks[k]);
        }
        k := k + 1;
      }
    }

    /** The first answer; a model that cannot be reached is apologised for. */
    method FirstAnswer(chunks: Option<seq<string>>) returns (content: string)
      requires Valid()
      modifies this
      ensures Valid() && Extends(old(events))
      ensures Display() == old(Display()).(streaming := old(Display()).streaming + content)
      ensures content == match chunks case Some(c) => Concat(c) case None => APOLOGY
    {
      match chunks {
        case Some(c) => content := StreamLLMResponse(c);
        case None =>
          content := APOLOGY;
          SendChunk(content);
      }
    }

    /** What was streamed asked for files: it is withdrawn and, if the model answers, another answer streamed. */
    method NextAnswer(files: seq<string>, chunks: Option<seq<string>>) returns (content: string)
      requires Valid()
      modifies this
      ensures Valid() && Extends(old(events))
      ensures Display() == old(Display()).(streaming := content)
      ensures content == match chunks case Some(c) => Concat(c) case None => ""
    {
      Withdraw(files);
      match chunks {
        case Some(c) => content := StreamLLMResponse(c);
        case None => content := "";
      }
    }

    /**
     * Streams an answer, and for as long as it asks for files, reads them and streams another, up to five more.
     * `answers` are the texts generated, of which the last is the answer.
     */
    method GenerateAnswer(world: World) returns (content: string, ghost answers: seq<string>)
      requires Valid() && Display().streaming == ""
      modifies this
      ensures Valid() && Extends(old(events))
      ensures Display() == old(Display()).(streaming := content)
      ensures 1 <= |answers| <= 6 && content == answers[|answers| - 1]
      ensures AreAnswers(world, answers)
      ensures |answers| == 6 || world.requestedFiles(content) == []
              || (|answers| > 1 && world.generate(|answers| - 1).None?)
    {
      content := FirstAnswer(world.generate(0));
      assert old(Display()).streaming + content == content;
      answers := [content];
      var i := 0;
      while i < MAX_TOOL_ITERATIONS
        invariant 0 <= i <= MAX_TOOL_ITERATIONS && |answers| == 1 + i && content == answers[i]
        invariant AreAnswers(world, answers) && (i > 0 ==> world.generate(i).Some?)
        invariant Valid() && Extends(old(events))
        invariant Display() == old(Display()).(streaming := content)
      {
        var files := world.requestedFiles(content);
        if files == [] { break; }
        var failed;
        ghost var before := events;
        content, failed, answers := AnswerAgain(world, files, i + 1, answers);
        ExtensionTrans(old(events), before, events);
        assert answers[i + 1] == content;
        if failed { break; }
        i := i + 1;
      }
    }

    /** One more generation, the `n`th from 0, because the last answer asked for `files`. */
    method AnswerAgain(world: World, files: seq<string>, n: nat, ghost answers: seq<string>)
      returns (content: string, failed: bool, ghost more: seq<string>)
      requires Valid() && |answers| == n > 0 && AreAnswers(world, answers)
      requires files == world.requestedFiles(answers[n - 1]) && files != [] && (n > 1 ==> world.generate(n - 1).Some?)
      modifies this
      ensures Valid() && Extends(old(events)) && Display() == old(Display()).(streaming := content)
      ensures more == answers + [content] && AreAnswers(world, more) && failed == world.generate(n).None?
    {
      var chunks := world.generate(n);
      content := NextAnswer(files, chunks);
      AnswersSnoc(world, answers, content);
      failed, more := chunks.None?, answers + [content];
    }

    /** The answer, from the model if there is one; what is saved is what was shown, without the file tags. */
    method Answer(world: World) returns (content: string)
      requires Valid() && Display().streaming == ""
      modifies this
      ensures Valid() && Extends(old(events))
      ensures Display() == old(Display()).(streaming := Display().streaming)
      ensures content == if world.hasModel then world.stripTags(Display().streaming) else Display().streaming
      ensures !world.hasModel ==> content == NOT_CONFIGURED
    {
      if world.hasModel {
        ghost var answers;
        content, answers := GenerateAnswer(world);
        content := world.stripTags(content);
      } else {
        content := NOT_CONFIGURED;
        SendChunk(content);
      }
    }

    /** Saves the answer and ends the reply, well or badly. */
    method Conclude(saves: bool, content: string) returns (saved: Option<string>)
      requires Valid() && Extends([])
      modifies this
      ensures Valid() && Closes(old(events)) && DoneOnlyLast(events)
      ensures saved == if saves then Some(content) else None
      ensures saves ==>
                && events[|old(events)|] == Event("assistant_message", codec.marshal(Message(content)))
                && Display() == old(Display()).(streaming := "", optimistic := None)
      ensures !saves ==> Display() == old(Display()).(error := Some("failed to save response"))
    {
      if !saves {
        Fail("failed to save response");
        saved := None;
      } else {
        Finish(content);
        saved := Some(content);
      }
      ClosedStream(old(events), events);
    }

    /** What follows the user's message, which `before` ends in; `streamed` are the events up to the last two. */
    method Reply(world: World) returns (saved: Option<string>, ghost streamed: seq<Event>)
      requires Valid() && Extends([]) && Display().streaming == ""
      modifies this
      ensures Valid() && Closes(streamed) && DoneOnlyLast(events)
      ensures |old(events)| <= |streamed| && streamed[..|old(events)|] == old(events)
      ensures saved.Some? <==> world.historyLoads && world.saves
      ensures saved.Some? ==>
                var shown := ShownAll(codec, EMPTY_VIEW, streamed);
                && shown == old(Display()).(streaming := shown.streaming)
                && saved.value == (if world.hasModel then world.stripTags(shown.streaming) else shown.streaming)
                && events[|streamed|] == Event("assistant_message", codec.marshal(Message(saved.value)))
                && Display() == shown.(streaming := "", optimistic := None)
      ensures saved.None? ==> Display().error.Some?
    {
      streamed := events;
      if !world.historyLoads {
        Fail("failed to get conversation history");
        ClosedStream(streamed, events);
        return None, streamed;
      }
      var content := Answer(world);
      streamed := events;
      saved := Conclude(world.saves, content);
    }

    /**
     * The stream of one reply. It ends in its only "done", so a client recovers it whatever the cuts. When the
     * reply is saved, what is saved is what the client was showing, without the tags that ask for files; when
     * something failed, the client shows the error.
     */
    method SendMessage(world: World, userMessage: string) returns (saved: Option<string>, ghost streamed: seq<Event>)
      requires Valid() && events == []
      modifies this
      ensures Valid() && Closes(streamed) && DoneOnlyLast(events)
      ensures |streamed| > 0 && streamed[0] == Event("user_message", codec.marshal(Message(userMessage)))
      ensures saved.Some? <==> world.historyLoads && world.saves
      ensures saved.Some? ==>
                var shown := ShownAll(codec, EMPTY_VIEW, streamed);
                && shown.optimistic == Some(userMessage) && shown.error == None
                && saved.value == (if world.hasModel then world.stripTags(shown.streaming) else shown.streaming)
                && events[|streamed|] == Event("assistant_message", codec.marshal(Message(saved.value)))
                && Display() == EMPTY_VIEW
      ensures saved.None? ==> Display().error.Some?
    {
      assert Display() == EMPTY_VIEW;
      SendUserMessage(userMessage);
      saved, streamed := Reply(world);
    }
  }

  /**
   * From handler to panel: whatever the server streamed as one reply, and however it was cut on the way, the
   * panel ends up showing what the events say, in order.
   */
  lemma PanelShowsReply(codec: Codec, events: seq<Event>, chunks: seq<string>)
    requires forall i :: 0 <= i < |events| ==> IsEvent(events[i])
    requires DoneOnlyLast(events) && Concat(chunks) == StreamText(events)
    ensures ShownAll(codec, EMPTY_VIEW, Handled("", chunks)) == ShownAll(codec, EMPTY_VIEW, events)
  {
    AnyCutSameEvents(events, chunks);
  }

  // ---------------------------------------------------------------- what is asked of JSON can be met

  /** A string on one line, with an end mark of its own. */
  function Quote(s: string): string {
    if s == "" then "\\."
    else (if s[0] == '\n' then "\\n" else if s[0] == '\\' then "\\\\" else [s[0]]) + Quote(s[1..])
  }

  /** The string up to its end mark, and what follows. */
  function Unquote(t: string): (r: Option<(string, string)>)
    ensures r.Some? ==> |r.value.1| < |t|
    decreases |t|
  {
    if t == "" || (t[0] == '\\' && |t| == 1) then None
    else if t[0] != '\\' then
      var (s, rest) :- Unquote(t[1..]);
      Some(([t[0]] + s, rest))
    else if t[1] == '.' then Some(("", t[2..]))
    else if t[1] == 'n' || t[1] == '\\' then
      var (s, rest) :- Unquote(t[2..]);
      Some(([if t[1] == 'n' then '\n' else '\\'] + s, rest))
    else None
  }

  lemma {:induction false} UnquoteBack(s: string, rest: string)
    ensures Unquote(Quote(s) + rest) == Some((s, rest)) && IsLine(Quote(s))
  {
    var t := Quote(s) + rest;
    if s == "" {
      assert t[2..] == rest;
    } else {
      UnquoteBack(s[1..], rest);
      assert [s[0]] + s[1..] == s;
      if s[0] == '\n' || s[0] == '\\' {
        assert t[2..] == Quote(s[1..]) + rest;
      } else {
        assert t[1..] == Quote(s[1..]) + rest;
      }
    }
  }

  function QuoteAll(names: seq<string>): string {
    if names == [] then "." else "," + Quote(names[0]) + QuoteAll(names[1..])
  }

  function UnquoteAll(t: string): Option<seq<string>>
    decreases |t|
  {
    if t == "" then None
    else if t[0] != ',' then Some([])
    else
      var (name, rest) :- Unquote(t[1..]);
      var names :- UnquoteAll(rest);
      Some([name] + names)
  }

  lemma UnquoteAllCons(name: string, rest: string, names: seq<string>)
    requires UnquoteAll(rest) == Some(names) && IsLine(rest)
    ensures UnquoteAll("," + Quote(name) + rest) == Some([name] + names) && IsLine("," + Quote(name) + rest)
  {
    UnquoteBack(name, rest);
    var t := "," + Quote(name) + rest;
    assert t[1..] == Quote(name) + rest;
  }

  lemma {:induction false} UnquoteAllBack(names: seq<string>)
    ensures UnquoteAll(QuoteAll(names)) == Some(names) && IsLine(QuoteAll(names))
  {
    if names != [] {
      UnquoteAllBack(names[1..]);
      UnquoteAllCons(names[0], QuoteAll(names[1..]), names[1..]);
      assert [names[0]] + names[1..] == names;
    }
  }

  function MarshalLine(v: Value): string {
    match v
    case Message(content) => "m" + Quote(content)
    case Content(text) => "c" + Quote(text)
    case Files(names) => "f" + QuoteAll(names)
    case Problem(message) => "p" + Quote(message)
    case Nothing => "n"
  }

  function ParseLine(t: string): Option<Value> {
    if t == "" then None
    else if t[0] == 'n' then Some(Nothing)
    else if t[0] == 'f' then
      var names :- UnquoteAll(t[1..]);
      Some(Files(names))
    else
      var (s, _) :- Unquote(t[1..]);
      Some(if t[0] == 'm' then Message(s) else if t[0] == 'c' then Content(s) else Problem(s))
  }

  lemma ParseLineBack(v: Value)
    ensures ParseLine(MarshalLine(v)) == Some(v) && IsLine(MarshalLine(v)) && MarshalLine(v) != ""
  {
    match v {
      case Message(s) => TextBack('m', s);
      case Content(s) => TextBack('c', s);
      case Problem(s) => TextBack('p', s);
      case Files(names) =>
        UnquoteAllBack(names);
        assert ("f" + QuoteAll(names))[1..] == QuoteAll(names);
      case Nothing =>
    }
  }

  lemma TextBack(tag: char, s: string)
    requires tag != '\n'
    ensures Unquote(([tag] + Quote(s))[1..]) == Some((s, "")) && IsLine([tag] + Quote(s))
  {
    UnquoteBack(s, "");
    assert ([tag] + Quote(s))[1..] == Quote(s) + "" && Quote(s) + "" == Quote(s);
  }

  /** Functions with the properties asked of the two JSON libraries exist. */
  lemma SomeCodec()
    ensures IsCodec(Codec(v => MarshalLine(v), t => ParseLine(t)))
  {
    var codec := Codec(v => MarshalLine(v), t => ParseLine(t));
    forall v ensures codec.parse(codec.marshal(v)) == Some(v) && IsLine(codec.marshal(v)) && codec.marshal(v) != "" {
      ParseLineBack(v);
    }
  }
}
