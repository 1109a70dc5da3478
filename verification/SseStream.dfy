/** From the server's printer through any chunking to the client's frames. */
module SseStream {
  import opened Seqs
  import opened SseParser
  import opened SseDecoder
  import opened SseAgreement

  // The printer.

  datatype ServerEvent = ServerEvent(sequence: nat, eventType: string, json: string)

  /** The outcome of a reconnect request: a terminal frame's JSON, or the events to resume with. */
  datatype Reconnect = Reconnect(terminal: Option<string>, events: seq<ServerEvent>, heartbeat: bool)

  const RETRY_MS := 1000

  function Digit(d: nat): char
    requires d < 10
  {
    "0123456789"[d]
  }

  function Decimal(n: nat): (r: string)
    ensures r != ""
  {
    if n < 10 then [Digit(n)] else Decimal(n / 10) + [Digit(n % 10)]
  }

  /** The lines of one printed frame, without the blank line that ends it. */
  function ProjectionLines(e: ServerEvent): seq<string> {
    ["id: " + Decimal(e.sequence), "event: " + e.eventType, "data: " + e.json]
  }

  function TerminalLines(json: string): seq<string> {
    ["event: terminal", "data: " + json]
  }

  function Printed(lines: seq<string>): string {
    Join("\n", lines) + "\n\n"
  }

  function EventTexts(events: seq<ServerEvent>): seq<seq<string>> {
    if events == [] then [] else [ProjectionLines(events[0])] + EventTexts(events[1..])
  }

  /** `_sse_frames`, each frame as its lines. */
  function ServerFrames(r: Reconnect): seq<seq<string>> {
    match r.terminal
    case Some(json) => [TerminalLines(json)]
    case None => EventTexts(r.events) + (if r.heartbeat then [[": ping"]] else []) + [["retry: " + Decimal(RETRY_MS)]]
  }

  function PrintAll(frames: seq<seq<string>>): string {
    if frames == [] then "" else Printed(frames[0]) + PrintAll(frames[1..])
  }

  function EventFrames(events: seq<ServerEvent>): seq<Frame> {
    if events == [] then []
    else
      [Event(Some(Decimal(events[0].sequence)), Some(events[0].eventType), events[0].json)]
      + EventFrames(events[1..])
  }

  /** The frames the client should see. */
  function ClientFrames(r: Reconnect): seq<Frame> {
    match r.terminal
    case Some(json) => [Event(None, Some("terminal"), json)]
    case None => EventFrames(r.events) + (if r.heartbeat then [Comment(" ping")] else []) + [Retry(RETRY_MS)]
  }

  predicate Clean(s: string) {
    forall i :: 0 <= i < |s| ==> s[i] != '\r' && s[i] != '\n'
  }

  /** Event types and JSON payloads hold no line break, as `json.dumps` guarantees. */
  predicate CleanReconnect(r: Reconnect) {
    && (r.terminal.Some? ==> Clean(r.terminal.value))
    && (forall k :: 0 <= k < |r.events| ==> Clean(r.events[k].eventType) && Clean(r.events[k].json))
  }

  predicate GoodLines(lines: seq<string>) {
    lines != [] && forall k :: 0 <= k < |lines| ==> lines[k] != "" && Clean(lines[k])
  }

  lemma {:induction false} DecimalClean(n: nat)
    ensures Clean(Decimal(n))
  {
    if n >= 10 {
      DecimalClean(n / 10);
    }
  }

  lemma {:induction false} CleanLine(s: string)
    requires Clean(s)
    ensures Lines(s) == [s] && BreakAt(s) == -1
  {
    if s != "" {
      CleanLine(s[1..]);
      assert [s[0]] + s[1..] == s;
    }
  }

  lemma {:induction false} JoinCons(line: string, more: seq<string>)
    requires more != []
    ensures Join("\n", [line] + more) == line + "\n" + Join("\n", more)
  {
    assert ([line] + more)[1..] == more;
  }

  lemma {:induction false} JoinedLines(lines: seq<string>)
    requires GoodLines(lines)
    ensures Lines(Join("\n", lines)) == lines
  {
    if |lines| == 1 {
      CleanLine(lines[0]);
    } else {
      var more := lines[1..];
      assert lines == [lines[0]] + more;
      JoinCons(lines[0], more);
      JoinedLines(more);
      CleanLine(lines[0]);
      LinesConcat(lines[0], Join("\n", more));
    }
  }

  /** A clean, non-empty line is no break, and neither is one line break after it. */
  lemma {:induction false} BreakPastLine(line: string, y: string)
    requires Clean(line) && line != "" && (y == "" || y[0] != '\n')
    ensures BreakAt(line + "\n" + y) == if BreakAt(y) < 0 then -1 else |line| + 1 + BreakAt(y)
  {
    var s := line + "\n" + y;
    assert s[0] == line[0];
    if |line| == 1 {
      assert s[1..] == "\n" + y;
      assert ("\n" + y)[1..] == y;
      BreakPastNewline(y);
    } else {
      assert s[1..] == line[1..] + "\n" + y;
      BreakPastLine(line[1..], y);
    }
  }

  lemma {:induction false} BreakPastNewline(y: string)
    requires y == "" || y[0] != '\n'
    ensures BreakAt("\n" + y) == if BreakAt(y) < 0 then -1 else 1 + BreakAt(y)
  {
    assert ("\n" + y)[1..] == y;
    if y != "" {
      assert ("\n" + y)[1] == y[0];
    }
  }

  lemma {:induction false} BreakAfterLine(line: string, z: string)
    requires Clean(line) && line != ""
    ensures BreakAt(line + "\n\n" + z) == |line|
  {
    var s := line + "\n\n" + z;
    assert s[0] == line[0];
    if |line| == 1 {
      assert s[1..] == "\n\n" + z;
      assert ("\n\n" + z)[0] == '\n' && ("\n\n" + z)[1] == '\n';
    } else {
      assert s[1..] == line[1..] + "\n\n" + z;
      BreakAfterLine(line[1..], z);
    }
  }

  /** The first break after a printed frame is its own. */
  lemma {:induction false} BreakAfterFrame(lines: seq<string>, z: string)
    requires GoodLines(lines)
    ensures BreakAt(Join("\n", lines) + "\n\n" + z) == |Join("\n", lines)|
    ensures Join("\n", lines) != "" && Join("\n", lines)[0] == lines[0][0]
  {
    if |lines| == 1 {
      BreakAfterLine(lines[0], z);
    } else {
      var more := lines[1..];
      assert lines == [lines[0]] + more;
      JoinCons(lines[0], more);
      BreakAfterFrame(more, z);
      var y := Join("\n", more) + "\n\n" + z;
      assert more[0] == lines[1];
      assert Join("\n", lines) + "\n\n" + z == lines[0] + "\n" + y;
      BreakPastLine(lines[0], y);
    }
  }

  predicate NoCr(s: string) {
    forall i :: 0 <= i < |s| ==> s[i] != '\r'
  }

  lemma {:induction false} JoinNoCr(lines: seq<string>)
    requires GoodLines(lines)
    ensures NoCr(Join("\n", lines))
  {
    if |lines| > 1 {
      assert lines == [lines[0]] + lines[1..];
      JoinCons(lines[0], lines[1..]);
      JoinNoCr(lines[1..]);
    }
  }

  function LineFrames(lines: seq<string>, num: ToNumber): seq<Frame> {
    ParseLines(lines + ["", ""], num)
  }

  function AllLineFrames(frames: seq<seq<string>>, num: ToNumber): seq<Frame> {
    if frames == [] then [] else LineFrames(frames[0], num) + AllLineFrames(frames[1..], num)
  }

  predicate AllGood(frames: seq<seq<string>>) {
    forall k :: 0 <= k < |frames| ==> GoodLines(frames[k])
  }

  lemma {:induction false} PrintedCons(frames: seq<seq<string>>, num: ToNumber)
    requires AllGood(frames) && frames != []
    ensures GoodLines(frames[0]) && AllGood(frames[1..])
    ensures PrintAll(frames) == Join("\n", frames[0]) + "\n\n" + PrintAll(frames[1..])
    ensures AllLineFrames(frames, num) == LineFrames(frames[0], num) + AllLineFrames(frames[1..], num)
  {
    hide Join, LineFrames;
  }

  lemma {:induction false} NoCrConcat(s: string, t: string)
    requires NoCr(s) && NoCr(t)
    ensures NoCr(s + t)
  {
  }

  lemma {:induction false} CutOff(body: string, tail: string)
    ensures var s := body + "\n\n" + tail;
            s[..|body|] == body && s[|body| + 2..] == tail
  {
  }

  lemma {:induction false} PrintedEmits(frames: seq<seq<string>>, num: ToNumber)
    requires AllGood(frames)
    ensures NoCr(PrintAll(frames))
    ensures Emitted(PrintAll(frames), num) == AllLineFrames(frames, num) && Rest(PrintAll(frames)) == ""
  {
    if frames == [] {
      NoBreak("", num);
    } else {
      PrintedCons(frames, num);
      hide *;
      var body, tail := Join("\n", frames[0]), PrintAll(frames[1..]);
      PrintedEmits(frames[1..], num);
      BreakAfterFrame(frames[0], tail);
      FrameBlock(frames[0], num);
      NoCrConcat(body + "\n\n", tail);
      CutOff(body, tail);
      CutFirst(body + "\n\n" + tail, |body|, num);
    }
  }

  /** A printed frame is one block, read back as the frame's lines. */
  lemma {:induction false} FrameBlock(lines: seq<string>, num: ToNumber)
    requires GoodLines(lines)
    ensures NoCr(Join("\n", lines) + "\n\n") && BlockFrames(Join("\n", lines), num) == LineFrames(lines, num)
  {
    hide ParseLines, Join, Lines;
    var body := Join("\n", lines);
    JoinNoCr(lines);
    JoinedLines(lines);
    BlockLines(body);
    NoCrNoCrLf(body + "\n\n");
    NormalizeFixed(body + "\n\n");
  }

  lemma {:induction false} NoCrNoCrLf(s: string)
    requires NoCr(s)
    ensures NoCrLf(s) && StableNewlines(s)
  {
  }

  // What each printed frame parses to.

  lemma {:induction false} IndexOfColon(name: string, value: string)
    requires ':' !in name
    ensures IndexOf(name + ":" + value, ':') == |name|
  {
    if name != "" {
      assert (name + ":" + value)[1..] == name[1..] + ":" + value;
      IndexOfColon(name[1..], value);
    }
  }

  lemma {:induction false} FieldStep(st: State, name: string, value: string, num: ToNumber)
    requires name != "" && ':' !in name
    ensures Step(st, name + ": " + value, num) == FieldLine(st, name, value, num)
  {
    hide FieldLine;
    var line := name + ":" + (" " + value);
    assert name + ": " + value == line;
    IndexOfColon(name, " " + value);
    assert line[..|name|] == name && line[|name| + 1..] == " " + value && (" " + value)[1..] == value;
    assert line[0] == name[0];
  }

  lemma {:induction false} JoinOne(s: string)
    ensures Join("\n", [] + [s]) == s
  {
    assert [] + [s] == [s];
  }

  lemma {:induction false} FoldCons(st: State, line: string, more: seq<string>, num: ToNumber)
    ensures Fold(st, [line] + more, num) == Fold(Step(st, line, num), more, num)
  {
    assert ([line] + more)[1..] == more;
  }

  lemma {:induction false} ProjectionParses(e: ServerEvent, num: ToNumber)
    ensures LineFrames(ProjectionLines(e), num) == [Event(Some(Decimal(e.sequence)), Some(e.eventType), e.json)]
  {
    var a, b, c := "id: " + Decimal(e.sequence), "event: " + e.eventType, "data: " + e.json;
    assert "id" + ": " + Decimal(e.sequence) == a && "event" + ": " + e.eventType == b && "data" + ": " + e.json == c;
    FieldStep(START, "id", Decimal(e.sequence), num);
    var s1 := START.(id := Some(Decimal(e.sequence)));
    FieldStep(s1, "event", e.eventType, num);
    var s2 := s1.(event := Some(e.eventType));
    FieldStep(s2, "data", e.json, num);
    assert ProjectionLines(e) == [a] + ([b] + ([c] + []));
    FoldCons(START, a, [b] + ([c] + []), num);
    FoldCons(s1, b, [c] + [], num);
    FoldCons(s2, c, [], num);
    FoldBlank(ProjectionLines(e), num);
    JoinOne(e.json);
  }

  lemma {:induction false} TerminalParses(json: string, num: ToNumber)
    ensures LineFrames(TerminalLines(json), num) == [Event(None, Some("terminal"), json)]
  {
    var b, c := "event: terminal", "data: " + json;
    assert "event" + ": " + "terminal" == b && "data" + ": " + json == c;
    FieldStep(START, "event", "terminal", num);
    var s2 := START.(event := Some("terminal"));
    FieldStep(s2, "data", json, num);
    assert TerminalLines(json) == [b] + ([c] + []);
    FoldCons(START, b, [c] + [], num);
    FoldCons(s2, c, [], num);
    FoldBlank(TerminalLines(json), num);
    JoinOne(json);
  }

  lemma {:induction false} PingParses(num: ToNumber)
    ensures LineFrames([": ping"], num) == [Comment(" ping")]
  {
    assert ": ping"[1..] == " ping";
    FoldOne(START, ": ping", num);
    FoldBlank([": ping"], num);
  }

  lemma {:induction false} RetryParses(num: ToNumber)
    requires num(Decimal(RETRY_MS)) == Some(RETRY_MS)
    ensures LineFrames(["retry: " + Decimal(RETRY_MS)], num) == [Retry(RETRY_MS)]
  {
    var d := Decimal(RETRY_MS);
    assert "retry" + ": " + d == "retry: " + d;
    FieldStep(START, "retry", d, num);
    FoldOne(START, "retry: " + d, num);
    FoldBlank(["retry: " + d], num);
  }

  lemma {:induction false} EventsParse(events: seq<ServerEvent>, num: ToNumber)
    ensures AllLineFrames(EventTexts(events), num) == EventFrames(events)
  {
    if events != [] {
      hide LineFrames, ProjectionLines;
      ProjectionParses(events[0], num);
      EventsParse(events[1..], num);
      assert EventTexts(events)[1..] == EventTexts(events[1..]);
    }
  }

  lemma {:induction false} AllLineFramesConcat(a: seq<seq<string>>, b: seq<seq<string>>, num: ToNumber)
    ensures AllLineFrames(a + b, num) == AllLineFrames(a, num) + AllLineFrames(b, num)
  {
    if a == [] {
      assert a + b == b;
    } else {
      hide LineFrames;
      assert (a + b)[1..] == a[1..] + b;
      AllLineFramesConcat(a[1..], b, num);
      ConcatAssoc(LineFrames(a[0], num), AllLineFrames(a[1..], num), AllLineFrames(b, num));
    }
  }

  lemma {:induction false} OneFrame(lines: seq<string>, num: ToNumber)
    ensures AllLineFrames([lines], num) == LineFrames(lines, num)
  {
    hide LineFrames;
    assert [lines][1..] == [];
  }

  lemma {:induction false} FramesParse(r: Reconnect, num: ToNumber)
    requires num(Decimal(RETRY_MS)) == Some(RETRY_MS)
    ensures AllLineFrames(ServerFrames(r), num) == ClientFrames(r)
  {
    hide LineFrames, AllLineFrames, TerminalLines, EventTexts, EventFrames, Decimal;
    match r.terminal {
      case Some(json) =>
        OneFrame(TerminalLines(json), num);
        TerminalParses(json, num);
      case None =>
        var ping := if r.heartbeat then [[": ping"]] else [];
        var retry := ["retry: " + Decimal(RETRY_MS)];
        AllLineFramesConcat(EventTexts(r.events) + ping, [retry], num);
        AllLineFramesConcat(EventTexts(r.events), ping, num);
        EventsParse(r.events, num);
        OneFrame([": ping"], num);
        PingParses(num);
        OneFrame(retry, num);
        RetryParses(num);
        NoFrames(num);
    }
  }

  lemma {:induction false} NoFrames(num: ToNumber)
    ensures AllLineFrames([], num) == []
  {
  }

  lemma {:induction false} CleanConcat(a: string, b: string)
    requires Clean(a) && Clean(b)
    ensures Clean(a + b)
  {
  }

  lemma {:induction false} EventTextsGood(events: seq<ServerEvent>)
    requires forall k :: 0 <= k < |events| ==> Clean(events[k].eventType) && Clean(events[k].json)
    ensures AllGood(EventTexts(events))
  {
    if events != [] {
      var e := events[0];
      DecimalClean(e.sequence);
      CleanConcat("id: ", Decimal(e.sequence));
      CleanConcat("event: ", e.eventType);
      CleanConcat("data: ", e.json);
      assert GoodLines(ProjectionLines(e));
      assert forall k :: 0 <= k < |events[1..]| ==> events[1..][k] == events[k + 1];
      EventTextsGood(events[1..]);
    }
  }

  lemma {:induction false} ServerFramesGood(r: Reconnect)
    requires CleanReconnect(r)
    ensures AllGood(ServerFrames(r))
  {
    match r.terminal {
      case Some(json) =>
        CleanConcat("data: ", json);
        assert GoodLines(TerminalLines(json));
      case None =>
        EventTextsGood(r.events);
        DecimalClean(RETRY_MS);
        CleanConcat("retry: ", Decimal(RETRY_MS));
        assert GoodLines(["retry: " + Decimal(RETRY_MS)]) && GoodLines([": ping"]);
    }
  }

  /** Printer to parser: however the printed response is cut into chunks, the client's decoder
      yields exactly the frames the server meant, in order. */
  lemma {:induction false} PrintedFramesArrive(r: Reconnect, chunks: seq<string>, num: ToNumber)
    requires CleanReconnect(r) && num(Decimal(RETRY_MS)) == Some(RETRY_MS)
    requires Flatten(chunks) == PrintAll(ServerFrames(r))
    ensures DecodeChunks("", chunks, num) == ClientFrames(r)
  {
    hide Normalize, Emitted, PrintAll, Decimal, ServerFrames, AllLineFrames, ClientFrames;
    var text := PrintAll(ServerFrames(r));
    ServerFramesGood(r);
    PrintedEmits(ServerFrames(r), num);
    NoCrNoCrLf(text);
    NormalizeFixed(text);
    ChunkingIndependent(chunks, num);
    FramesParse(r, num);
  }

  /** Unmixedness is needed: after a block of a retry hint and data, the whole-text parser keeps the
      event back until the next blank line, behind the comment that the decoder puts after it. */
  lemma {:induction false} MixingMatters(num: ToNumber)
    requires num(Decimal(5)) == Some(5)
    ensures var frames := [["retry: " + Decimal(5), "data: x"], [":"]];
            && DecodeChunks("", [PrintAll(frames)], num) == [Retry(5), Event(None, None, "x"), Comment("")]
            && ParseLines(frames[0] + [""] + frames[1] + ["", ""], num)
               == [Retry(5), Comment(""), Event(None, None, "x")]
            && Lines(PrintAll(frames)) == frames[0] + [""] + frames[1] + ["", ""]
  {
    var mixed := ["retry: " + Decimal(5), "data: x"];
    DecimalClean(5);
    CleanConcat("retry: ", Decimal(5));
    assert GoodLines(mixed) && GoodLines([":"]);
    MixedDecoded(mixed, num);
    MixedWhole(num);
    MixedLines(mixed);
  }

  lemma {:induction false} MixedFold(num: ToNumber)
    requires num(Decimal(5)) == Some(5)
    ensures Fold(START, ["retry: " + Decimal(5), "data: x"], num) == START.(retry := Some(5), data := ["x"])
  {
    var d, s1 := Decimal(5), START.(retry := Some(5));
    assert [] + ["x"] == ["x"];
    assert FieldLine(START, "retry", d, num) == s1 && FieldLine(s1, "data", "x", num) == s1.(data := ["x"]);
    hide Fold, Step, FieldLine, Decimal;
    assert "retry" + ": " + d == "retry: " + d && "data" + ": " + "x" == "data: x";
    FieldStep(START, "retry", d, num);
    FieldStep(s1, "data", "x", num);
    assert ["retry: " + d, "data: x"] == ["retry: " + d] + (["data: x"] + []);
    FoldCons(START, "retry: " + d, ["data: x"] + [], num);
    FoldCons(s1, "data: x", [], num);
    FoldNone(s1.(data := ["x"]), num);
  }

  lemma {:induction false} FoldNone(st: State, num: ToNumber)
    ensures Fold(st, [], num) == st
  {
  }

  lemma {:induction false} ColonStep(st: State, num: ToNumber)
    ensures Step(st, ":", num) == st.(frames := st.frames + [Comment("")])
  {
    assert ":"[1..] == "";
  }

  lemma {:induction false} MixedDecoded(mixed: seq<string>, num: ToNumber)
    requires num(Decimal(5)) == Some(5) && GoodLines(mixed) && mixed == ["retry: " + Decimal(5), "data: x"]
    ensures DecodeChunks("", [PrintAll([mixed, [":"]])], num) == [Retry(5), Event(None, None, "x"), Comment("")]
  {
    hide Normalize, Emitted, PrintAll, Decimal, AllLineFrames, Lines, Fold;
    var frames := [mixed, [":"]];
    assert AllGood(frames);
    PrintedEmits(frames, num);
    NoCrNoCrLf(PrintAll(frames));
    NormalizeFixed(PrintAll(frames));
    var chunks := [PrintAll(frames)];
    assert chunks[1..] == [] && Flatten(chunks) == PrintAll(frames);
    ChunkingIndependent(chunks, num);
    MixedFold(num);
    FoldBlank(mixed, num);
    FoldOne(START, ":", num);
    ColonStep(START, num);
    FoldBlank([":"], num);
    assert frames == [mixed] + [[":"]];
    AllLineFramesConcat([mixed], [[":"]], num);
    OneFrame(mixed, num);
    OneFrame([":"], num);
    JoinOne("x");
  }

  lemma {:induction false} MixedWhole(num: ToNumber)
    requires num(Decimal(5)) == Some(5)
    ensures ParseLines(["retry: " + Decimal(5), "data: x"] + [""] + [":"] + ["", ""], num) ==
            [Retry(5), Comment(""), Event(None, None, "x")]
  {
    hide Fold, Decimal;
    var mixed := ["retry: " + Decimal(5), "data: x"];
    MixedFold(num);
    var st := START.(retry := Some(5), data := ["x"]);
    FoldBlank(mixed, num);
    FoldConcat(START, mixed + [""], [":"], num);
    FoldOne(BlankLine(st), ":", num);
    ColonStep(BlankLine(st), num);
    FoldConcat(START, mixed + [""] + [":"], ["", ""], num);
    var s3 := Fold(START, mixed + [""] + [":"], num);
    assert ["", ""] == [""] + [""];
    FoldConcat(s3, [""], [""], num);
    FoldOne(s3, "", num);
    FoldOne(BlankLine(s3), "", num);
    JoinOne("x");
  }

  lemma {:induction false} MixedLines(mixed: seq<string>)
    requires GoodLines(mixed)
    ensures Lines(PrintAll([mixed, [":"]])) == mixed + [""] + [":"] + ["", ""]
  {
    hide Lines;
    var frames := [mixed, [":"]];
    var a := Join("\n", mixed);
    assert frames[1..] == [[":"]] && frames[1..][1..] == [];
    assert Join("\n", [":"]) == ":";
    assert PrintAll([[":"]]) == Printed([":"]) + PrintAll([]);
    assert PrintAll(frames) == Printed(mixed) + PrintAll([[":"]]);
    assert PrintAll(frames) == a + "\n\n" + (":" + "\n\n");
    SplitLines(a, ":" + "\n\n");
    BlockLines(":");
    JoinedLines(mixed);
    JoinedLines([":"]);
    assert (mixed + [""]) + ([":"] + ["", ""]) == mixed + [""] + [":"] + ["", ""];
  }
}
