/** Where the incremental decoder and the whole-text parser agree, and where they part. */
module SseAgreement {
  import opened Seqs
  import opened SseParser
  import opened SseDecoder

  // Lines and blank lines.

  lemma {:induction false} NormalizeFixed(x: string)
    requires NoCrLf(x)
    ensures Normalize(x) == x
  {
    if x != "" {
      var t := x[1..];
      forall i | 0 <= i && i + 1 < |t|
        ensures !(t[i] == '\r' && t[i + 1] == '\n')
      {
        assert t[i] == x[i + 1] && t[i + 1] == x[i + 2];
      }
      NormalizeFixed(t);
      assert x == [x[0]] + t;
      NormalizeOther(x[0], t);
    }
  }

  lemma {:induction false} FoldOne(st: State, line: string, num: ToNumber)
    ensures Fold(st, [line], num) == Step(st, line, num)
  {
    assert [line][1..] == [];
  }

  lemma {:induction false} FoldBlank(lines: seq<string>, num: ToNumber)
    ensures Fold(START, lines + [""], num) == BlankLine(Fold(START, lines, num))
    ensures Fold(START, lines + ["", ""], num) == BlankLine(BlankLine(Fold(START, lines, num)))
  {
    FoldConcat(START, lines, [""], num);
    FoldOne(Fold(START, lines, num), "", num);
    assert lines + ["", ""] == (lines + [""]) + [""];
    FoldConcat(START, lines + [""], [""], num);
    FoldOne(Fold(START, lines + [""], num), "", num);
  }

  lemma {:induction false} BlockLines(block: string)
    ensures Lines(block + "\n\n") == Lines(block) + ["", ""]
  {
    assert block + "\n\n" == block + "\n" + ("" + "\n" + "");
    LinesConcat(block, "" + "\n" + "");
    LinesConcat("", "");
    assert Lines("") == [""] && [""] + [""] == ["", ""];
  }

  lemma {:induction false} SplitLines(block: string, tail: string)
    ensures Lines(block + "\n\n" + tail) == (Lines(block) + [""]) + Lines(tail)
  {
    hide Lines;
    assert block + "\n\n" + tail == block + "\n" + ("" + "\n" + tail);
    LinesConcat(block, "" + "\n" + tail);
    LinesConcat("", tail);
    EmptyLine();
    ConcatAssoc(Lines(block), [""], Lines(tail));
  }

  lemma {:induction false} EmptyLine()
    ensures Lines("") == [""]
  {
  }

  /** The end of the text does what one more blank line would do, once a blank line has come. */
  lemma {:induction false} BlankTwice(st: State)
    ensures Finish(BlankLine(BlankLine(st))) == Finish(BlankLine(st))
  {
  }

  lemma {:induction false} NoCrLfOneMore(s: string)
    requires NoCrLf(s) && s != "" && s[|s| - 1] != '\r'
    ensures NoCrLf(s + "\n")
  {
    var t := s + "\n";
    forall i | 0 <= i && i + 1 < |t|
      ensures !(t[i] == '\r' && t[i + 1] == '\n')
    {
      if i + 1 < |s| {
        assert t[i] == s[i] && t[i + 1] == s[i + 1];
      }
    }
  }

  lemma {:induction false} NoCrLfThenBreaks(s: string)
    requires NoCrLf(s) && s != "" && s[|s| - 1] != '\r'
    ensures NoCrLf(s + "\n\n")
  {
    NoCrLfOneMore(s);
    NoCrLfOneMore(s + "\n");
    assert s + "\n" + "\n" == s + "\n\n";
  }

  lemma {:induction false} NoCrLfSuffix(s: string, k: nat)
    requires NoCrLf(s) && k <= |s|
    ensures NoCrLf(s[k..])
  {
    forall i | 0 <= i && i + 1 < |s[k..]|
      ensures !(s[k..][i] == '\r' && s[k..][i + 1] == '\n')
    {
      assert s[k..][i] == s[k + i] && s[k..][i + 1] == s[k + i + 1];
    }
  }

  // What a line can do.

  /** The text of the line reaches a frame: a comment, or an id, event or data field. */
  predicate Carries(line: string) {
    line != ""
    && (line[0] == ':'
        || (var colon := IndexOf(line, ':');
            colon >= 0 && (line[..colon] == "id" || line[..colon] == "event" || line[..colon] == "data")))
  }

  /** A retry field with a valid value. */
  predicate Hints(line: string, num: ToNumber) {
    line != "" && line[0] != ':'
    && var colon := IndexOf(line, ':');
       colon >= 0 && line[..colon] == "retry"
       && var ms := num(Unspaced(line[colon + 1..]));
          ms.Some? && ms.value >= 0
  }

  predicate Effective(line: string, num: ToNumber) {
    Carries(line) || Hints(line, num)
  }

  /** No effective line comes before the first empty one. */
  predicate Idle(lines: seq<string>, num: ToNumber) {
    lines == [] || lines[0] == "" || (!Effective(lines[0], num) && Idle(lines[1..], num))
  }

  predicate Nonblank(lines: seq<string>) {
    forall i :: 0 <= i < |lines| ==> lines[i] != ""
  }

  // Blocks of a text.

  /** The text starts with a finished block: one that a line break, and another or the end, follow. */
  predicate Closed(s: string) {
    BreakAt(s) >= 0 || EndsWithNewline(s)
  }

  function Block(s: string): string
    requires Closed(s)
  {
    if BreakAt(s) >= 0 then s[..BreakAt(s)] else s[..|s| - 1]
  }

  function Tail(s: string): (r: string)
    requires Closed(s)
    ensures |r| < |s|
  {
    if BreakAt(s) >= 0 then s[BreakAt(s) + 2..] else ""
  }

  /** A block that leaves both a retry hint and an unfinished event. */
  predicate Mixed(block: string, num: ToNumber) {
    var st := Fold(START, Lines(block), num);
    st.retry.Some? && Pending(st)
  }

  function Trim(line: string): string {
    if line != "" && line[|line| - 1] == '\r' then line[..|line| - 1] else line
  }

  predicate EndsWithCr(s: string) {
    s != "" && s[|s| - 1] == '\r'
  }

  /** The unfinished end of a text: the whole-text parser drops the event of a mixed one, and the decoder
      drops a last CR, which shows when the last line carries text. */
  predicate RestAgrees(s: string, num: ToNumber) {
    !Mixed(s, num) && (EndsWithCr(s) ==> !Carries(Trim(Lines(s)[|Lines(s)| - 1])))
  }

  /** After each mixed block no effective line comes before the first empty one, and the unfinished end
      of the text is in order. */
  predicate Agrees(s: string, num: ToNumber)
    decreases |s|
  {
    if Closed(s) then (Mixed(Block(s), num) ==> Idle(Lines(Tail(s)), num)) && Agrees(Tail(s), num)
    else RestAgrees(s, num)
  }

  /** The number reader does not see a trailing CR; JavaScript's `Number` trims it. */
  ghost predicate IgnoresCr(num: ToNumber) {
    forall v: string :: num(v + "\r") == num(v)
  }

  ghost predicate Sound(s: string, num: ToNumber) {
    NoCrLf(s) && (EndsWithCr(s) ==> IgnoresCr(num))
  }

  lemma {:induction false} SoundTail(s: string, num: ToNumber)
    requires Sound(s, num) && Closed(s)
    ensures Sound(Tail(s), num) && NoCrLf(Block(s) + "\n\n")
  {
    if BreakAt(s) >= 0 {
      var i := BreakAt(s);
      NoCrLfSuffix(s, i + 2);
      assert s == (s[..i] + "\n\n") + s[i + 2..];
      NoCrLfPrefix(s[..i] + "\n\n", s[i + 2..]);
      assert s[i + 2..] != "" ==> s[i + 2..][|s[i + 2..]| - 1] == s[|s| - 1];
    } else {
      NoCrLfOneMore(s);
      assert s + "\n" == s[..|s| - 1] + "\n\n";
    }
  }

  // What the decoder makes of a text.

  function HintFrames(st: State): seq<Frame> {
    if st.retry.Some? then [Retry(st.retry.value)] else []
  }

  function EventFrames(st: State): seq<Frame> {
    if Pending(st) then [Event(st.id, st.event, Join("\n", st.data))] else []
  }

  function FramesOf(st: State): seq<Frame> {
    st.frames + HintFrames(st) + EventFrames(st)
  }

  function Decoding(s: string, num: ToNumber): seq<Frame> {
    Emitted(s, num) + FlushFrames(Rest(s), num)
  }

  lemma {:induction false} BlanksSettle(st: State)
    ensures Finish(BlankLine(BlankLine(st))) == FramesOf(st)
    ensures Finish(BlankLine(BlankLine(BlankLine(st)))) == FramesOf(st)
  {
    assert (st.frames + HintFrames(st)) + [] == st.frames + HintFrames(st) && st.frames + [] == st.frames;
  }

  lemma {:induction false} BlockFramesOf(block: string, num: ToNumber)
    requires NoCrLf(block + "\n\n")
    ensures BlockFrames(block, num) == FramesOf(Fold(START, Lines(block), num))
  {
    hide Lines, Fold, Finish, BlankLine, FramesOf;
    NormalizeFixed(block + "\n\n");
    BlockLines(block);
    FoldBlank(Lines(block), num);
    BlanksSettle(Fold(START, Lines(block), num));
  }

  lemma {:induction false} DecodingClosed(s: string, num: ToNumber)
    requires Sound(s, num) && Closed(s)
    ensures Decoding(s, num) == FramesOf(Fold(START, Lines(Block(s)), num)) + Decoding(Tail(s), num)
  {
    hide Lines, Fold, FramesOf, Parse, Emitted, Rest, BreakAt;
    SoundTail(s, num);
    BlockFramesOf(Block(s), num);
    if BreakAt(s) >= 0 {
      CutFirst(s, BreakAt(s), num);
      ConcatAssoc(BlockFrames(Block(s), num), Emitted(Tail(s), num), FlushFrames(Rest(Tail(s)), num));
    } else {
      NoBreak(s, num);
      assert s + "\n" == Block(s) + "\n\n";
      NothingToDecode(num);
      assert Decoding(s, num) == BlockFrames(Block(s), num);
      assert BlockFrames(Block(s), num) + [] == BlockFrames(Block(s), num);
    }
  }

  lemma {:induction false} NothingToDecode(num: ToNumber)
    ensures Decoding("", num) == []
  {
  }

  /** The state in which the decoder leaves an unfinished end. */
  function RestState(s: string, num: ToNumber): State {
    var ls := Lines(s);
    var before := Fold(START, ls[..|ls| - 1], num);
    var last := Trim(ls[|ls| - 1]);
    if last == "" then before else SseParser.Step(before, last, num)
  }

  lemma {:induction false} FoldLast(st: State, lines: seq<string>, num: ToNumber)
    requires lines != []
    ensures Fold(st, lines, num) == SseParser.Step(Fold(st, lines[..|lines| - 1], num), lines[|lines| - 1], num)
  {
    hide Fold, Step;
    SnocConcat([], lines);
    FoldConcat(st, lines[..|lines| - 1], [lines[|lines| - 1]], num);
    FoldOne(Fold(st, lines[..|lines| - 1], num), lines[|lines| - 1], num);
  }

  function Lengthened(lines: seq<string>, c: char): seq<string>
    requires lines != []
  {
    lines[..|lines| - 1] + [lines[|lines| - 1] + [c]]
  }

  lemma {:induction false} LengthenedCons(first: char, lines: seq<string>, c: char)
    requires lines != []
    ensures var more := Lengthened(lines, c);
            && [[first] + more[0]] + more[1..] == Lengthened([[first] + lines[0]] + lines[1..], c)
            && [""] + more == Lengthened([""] + lines, c)
  {
    var more := Lengthened(lines, c);
    assert [first] + (lines[0] + [c]) == ([first] + lines[0]) + [c];
    var a, b := [[first] + more[0]] + more[1..], Lengthened([[first] + lines[0]] + lines[1..], c);
    assert |a| == |b| == |lines|;
    assert forall i :: 0 <= i < |lines| ==> a[i] == b[i];
  }

  lemma {:induction false} LinesSnoc(s: string, c: char)
    requires c != '\n'
    ensures Lines(s + [c]) == Lengthened(Lines(s), c)
  {
    if s == "" {
      EmptyLine();
      LinesCons(c, "");
      assert [c] + "" == [c] && "" + [c] == [c];
      assert [""][..0] + ["" + [c]] == [[c]] && [[c] + ""] + [""][1..] == [[c]];
    } else {
      hide Lines, Lengthened;
      LinesSnoc(s[1..], c);
      assert s == [s[0]] + s[1..] && s + [c] == [s[0]] + (s[1..] + [c]);
      LinesCons(s[0], s[1..]);
      LinesCons(s[0], s[1..] + [c]);
      LengthenedCons(s[0], Lines(s[1..]), c);
    }
  }

  lemma {:induction false} NormalizeLastCr(r: string)
    requires NoCrLf(r)
    ensures Normalize(r + "\r" + "\n\n") == r + "\n\n"
  {
    NormalizeFixed(r);
    assert r + "\r" + "\n\n" == r + "\r\n\n";
    NormalizeSplit(r, "\r\n\n");
    assert "\r\n\n" == "\r\n" + "\n";
    NormalizeCrLf("\n");
    assert Normalize("\n") == "\n" by {
      NormalizeOther('\n', "");
      assert ['\n'] + "" == "\n";
    }
  }

  /** The decoder parses an unfinished end as its lines, the last without its CR, and two blank ones. */
  lemma {:induction false} FlushParses(s: string, num: ToNumber)
    requires NoCrLf(s) && s != "" && !EndsWithNewline(s)
    ensures FlushFrames(s, num) == ParseLines(Lines(Trim(s)) + ["", ""], num)
    ensures Lines(s)[..|Lines(s)| - 1] == Lines(Trim(s))[..|Lines(Trim(s))| - 1]
    ensures Trim(Lines(s)[|Lines(s)| - 1]) == Lines(Trim(s))[|Lines(Trim(s))| - 1]
  {
    var t := s[..|s| - 1];
    assert s == t + [s[|s| - 1]];
    LinesSnoc(t, s[|s| - 1]);
    hide Lines, Normalize, ParseLines;
    if EndsWithCr(s) {
      NoCrLfPrefix(t, "\r");
      NormalizeLastCr(t);
      BlockLines(t);
    } else {
      NoCrLfThenBreaks(s);
      NormalizeFixed(s + "\n\n");
      BlockLines(s);
    }
  }

  lemma {:induction false} DecodingOpen(s: string, num: ToNumber)
    requires Sound(s, num) && !Closed(s)
    ensures Decoding(s, num) == FramesOf(RestState(s, num))
  {
    NoBreak(s, num);
    if s == "" {
      NothingToDecode(num);
      EmptyLine();
      assert [""][..0] == [];
    } else {
      hide Lines, Fold, FramesOf, BlankLine, Finish, Step, Trim, FlushFrames;
      FlushParses(s, num);
      var ls := Lines(Trim(s));
      var before := Fold(START, ls[..|ls| - 1], num);
      FoldBlank(ls, num);
      FoldLast(START, ls, num);
      BlankStep(before, num);
      BlanksSettle(before);
      BlanksSettle(RestState(s, num));
    }
  }

  lemma {:induction false} BlankStep(st: State, num: ToNumber)
    ensures SseParser.Step(st, "", num) == BlankLine(st)
  {
  }

  // What the whole-text parser makes of it, resumed in any state.

  function Whole(c: State, s: string, num: ToNumber): seq<Frame> {
    Finish(Fold(c, Lines(s), num))
  }

  /** A state between blocks: nothing emitted, no retry hint. */
  predicate Between(c: State) {
    c.frames == [] && c.retry.None?
  }

  /** The state `st`, reached from the start, as it is when `c` was carried over. */
  function Over(c: State, st: State): State {
    State(c.data + st.data, if st.id.Some? then st.id else c.id, if st.event.Some? then st.event else c.event,
          st.retry, c.frames + st.frames)
  }

  /** What a mixed block leaves behind. */
  function Kept(st: State): State {
    st.(frames := [], retry := None)
  }

  lemma {:induction false} StepOver(c: State, st: State, line: string, num: ToNumber)
    requires line != ""
    ensures SseParser.Step(Over(c, st), line, num) == Over(c, SseParser.Step(st, line, num))
  {
    assert forall f: Frame :: (c.frames + st.frames) + [f] == c.frames + (st.frames + [f]);
    assert forall v: string :: (c.data + st.data) + [v] == c.data + (st.data + [v]);
  }

  lemma {:induction false} FoldOver(c: State, st: State, lines: seq<string>, num: ToNumber)
    requires Nonblank(lines)
    ensures Fold(Over(c, st), lines, num) == Over(c, Fold(st, lines, num))
    decreases |lines|
  {
    if lines != [] {
      hide Step, Over;
      StepOver(c, st, lines[0], num);
      FoldOver(c, SseParser.Step(st, lines[0], num), lines[1..], num);
    }
  }

  lemma {:induction false} OverStart(c: State)
    ensures c.retry.None? ==> Over(c, START) == c
    ensures Over(START, c) == c
  {
    assert c.data + [] == c.data && [] + c.data == c.data && c.frames + [] == c.frames && [] + c.frames == c.frames;
  }

  lemma {:induction false} Resume(c: State, before: seq<Frame>, lines: seq<string>, num: ToNumber)
    requires c.frames == []
    ensures Finish(Fold(c.(frames := before), lines, num)) == before + Finish(Fold(c, lines, num))
  {
    FoldShift(c, before, lines, num);
    assert before + [] == before;
    FinishShift(Fold(c, lines, num), before);
  }

  lemma {:induction false} WholeClosed(c: State, s: string, num: ToNumber)
    requires Closed(s)
    ensures Whole(c, s, num) == Finish(Fold(BlankLine(Fold(c, Lines(Block(s)), num)), Lines(Tail(s)), num))
  {
    hide Lines, Fold, Finish, BlankLine, BreakAt;
    var st := Fold(c, Lines(Block(s)), num);
    if BreakAt(s) >= 0 {
      assert s == Block(s) + "\n\n" + Tail(s);
      SplitLines(Block(s), Tail(s));
      FoldConcat(c, Lines(Block(s)) + [""], Lines(Tail(s)), num);
    } else {
      assert s == Block(s) + "\n" + "";
      LinesConcat(Block(s), "");
      EmptyLine();
      FoldOne(BlankLine(st), "", num);
      BlankStep(BlankLine(st), num);
      BlankTwice(st);
    }
    FoldConcat(c, Lines(Block(s)), [""], num);
    FoldOne(st, "", num);
    BlankStep(st, num);
  }

  lemma {:induction false} AfterBlank(st: State)
    ensures st.retry.Some? ==> BlankLine(st) == Kept(st).(frames := st.frames + HintFrames(st))
    ensures st.retry.None? ==> BlankLine(st) == START.(frames := st.frames + EventFrames(st))
  {
    assert st.frames + [] == st.frames;
  }

  /** A finished block, when the state before it is carried over its lines. */
  lemma {:induction false} WholeTurn(c: State, st: State, s: string, num: ToNumber)
    requires Closed(s) && Between(c) && Fold(c, Lines(Block(s)), num) == Over(c, st)
    ensures st.retry.Some? ==>
              Whole(c, s, num) == (st.frames + HintFrames(st)) + Whole(Kept(Over(c, st)), Tail(s), num)
    ensures st.retry.None? ==>
              Whole(c, s, num) == (st.frames + EventFrames(Over(c, st))) + Whole(START, Tail(s), num)
  {
    WholeClosed(c, s, num);
    var o := Over(c, st);
    assert o.frames == st.frames && o.retry == st.retry;
    AfterBlank(o);
    hide Over, Lines, Fold, Finish, BlankLine;
    if st.retry.Some? {
      Resume(Kept(o), st.frames + HintFrames(st), Lines(Tail(s)), num);
    } else {
      Resume(START, st.frames + EventFrames(o), Lines(Tail(s)), num);
    }
  }

  lemma {:induction false} IdleStep(c: State, line: string, num: ToNumber)
    requires line != "" && !Effective(line, num)
    ensures SseParser.Step(c, line, num) == c
  {
  }

  /** Carried over idle lines, a pending event comes out first, as it does at once in the decoder. */
  lemma {:induction false} IdleFlush(c: State, lines: seq<string>, num: ToNumber)
    requires Between(c) && Idle(lines, num)
    ensures Finish(Fold(c, lines, num)) == EventFrames(c) + Finish(Fold(START, lines, num))
    decreases |lines|
  {
    if lines == [] {
      assert [] + EventFrames(c) == EventFrames(c) == EventFrames(c) + [];
    } else if lines[0] == "" {
      AfterBlank(c);
      AfterBlank(START);
      assert [] + EventFrames(c) == EventFrames(c) && START.(frames := []) == START;
      BlankStep(c, num);
      BlankStep(START, num);
      Resume(START, EventFrames(c), lines[1..], num);
    } else {
      hide Step, Effective;
      IdleStep(c, lines[0], num);
      IdleStep(START, lines[0], num);
      IdleFlush(c, lines[1..], num);
    }
  }

  // The lines of a block.

  lemma {:induction false} BreakFirst(s: string)
    ensures forall i :: 0 <= i < |s| - 1 && (BreakAt(s) < 0 || i < BreakAt(s)) ==> !(s[i] == '\n' && s[i + 1] == '\n')
    decreases |s|
  {
    if |s| >= 2 && !(s[0] == '\n' && s[1] == '\n') {
      BreakFirst(s[1..]);
      forall i | 0 <= i < |s| - 1 && (BreakAt(s) < 0 || i < BreakAt(s))
        ensures !(s[i] == '\n' && s[i + 1] == '\n')
      {
        if i > 0 {
          assert s[i] == s[1..][i - 1] && s[i + 1] == s[1..][i];
        }
      }
    }
  }

  lemma {:induction false} NoBreakAfter(s: string, k: nat)
    requires BreakAt(s) < 0 && k <= |s|
    ensures BreakAt(s[k..]) < 0
  {
    BreakFirst(s);
    var z := s[k..];
    assert forall i :: 0 <= i < |z| ==> z[i] == s[k + i];
  }

  lemma {:induction false} NoBreakInBlock(s: string)
    requires Closed(s)
    ensures BreakAt(Block(s)) < 0 && !EndsWithNewline(Block(s))
  {
    BreakFirst(s);
    var b := Block(s);
    assert forall i :: 0 <= i < |b| ==> b[i] == s[i];
  }

  /** Without an empty line break, only the last line of a text that does not start with one can be empty. */
  lemma {:induction false} Shape(x: string)
    requires BreakAt(x) < 0 && x != "" && x[0] != '\n'
    ensures Nonblank(Lines(x)[..|Lines(x)| - 1])
    ensures Lines(x)[|Lines(x)| - 1] == "" <==> EndsWithNewline(x)
    decreases |x|
  {
    var c, y := x[0], x[1..];
    assert x == [c] + y;
    LinesCons(c, y);
    if y == "" {
      EmptyLine();
    } else if y[0] == '\n' {
      var z := y[1..];
      assert y == ['\n'] + z;
      LinesCons('\n', z);
      if z == "" {
        EmptyLine();
      } else {
        BreakFirst(x);
        NoBreakAfter(x, 2);
        assert z == x[2..];
        assert z[0] == x[2] && x[1] == '\n';
        Shape(z);
        PrependShape([c] + "", Lines(z), Lines(x));
      }
    } else {
      NoBreakAfter(x, 1);
      Shape(y);
      assert |Lines(x)| == |Lines(y)|;
    }
  }

  lemma {:induction false} PrependShape(first: string, lines: seq<string>, all: seq<string>)
    requires first != "" && lines != [] && all == [first] + ([""] + lines)[1..] && Nonblank(lines[..|lines| - 1])
    ensures Nonblank(all[..|all| - 1]) && all[|all| - 1] == lines[|lines| - 1]
  {
    assert all == [first] + lines;
    assert forall i :: 0 < i < |all| - 1 ==> all[i] == lines[..|lines| - 1][i - 1];
  }

  lemma {:induction false} NonblankAll(x: string)
    requires BreakAt(x) < 0 && !EndsWithNewline(x) && x != "" && x[0] != '\n'
    ensures Nonblank(Lines(x))
  {
    hide Lines, BreakAt, Nonblank;
    Shape(x);
    NonblankSnoc(Lines(x));
  }

  lemma {:induction false} NonblankSnoc(lines: seq<string>)
    requires lines != [] && Nonblank(lines[..|lines| - 1]) && lines[|lines| - 1] != ""
    ensures Nonblank(lines)
  {
    assert forall i :: 0 <= i < |lines| - 1 ==> lines[i] == lines[..|lines| - 1][i];
  }

  /** The lines before the first break of a text that does not start with one. */
  lemma {:induction false} NonblankFirst(s: string)
    requires s != "" && s[0] != '\n'
    ensures Nonblank(Lines(if Closed(s) then Block(s) else s))
  {
    hide Lines, Nonblank;
    if Closed(s) {
      NoBreakInBlock(s);
      hide BreakAt;
      assert Block(s) != "" && Block(s)[0] == s[0];
      NonblankAll(Block(s));
    } else {
      NonblankAll(s);
    }
  }

  // A trailing CR.

  lemma {:induction false} IndexOfLonger(s: string, t: string, c: char)
    requires forall i :: 0 <= i < |t| ==> t[i] != c
    ensures IndexOf(s + t, c) == IndexOf(s, c)
  {
    if s == "" {
      assert s + t == t;
      IndexOfNone(t, c);
    } else {
      assert (s + t)[1..] == s[1..] + t;
      IndexOfLonger(s[1..], t, c);
    }
  }

  lemma {:induction false} IndexOfNone(t: string, c: char)
    requires forall i :: 0 <= i < |t| ==> t[i] != c
    ensures IndexOf(t, c) == -1
  {
  }

  lemma {:induction false} JoinLonger(lines: seq<string>, v: string)
    ensures Join("\n", lines + [v + "\r"]) == Join("\n", lines + [v]) + "\r"
  {
    if lines == [] {
      assert [] + [v + "\r"] == [v + "\r"] && [] + [v] == [v];
    } else {
      JoinLonger(lines[1..], v);
      assert (lines + [v + "\r"])[1..] == lines[1..] + [v + "\r"] && (lines + [v])[1..] == lines[1..] + [v];
      var a := Join("\n", lines[1..] + [v]);
      assert lines[0] + "\n" + (a + "\r") == (lines[0] + "\n" + a) + "\r";
    }
  }

  predicate Alike(a: State, b: State) {
    |a.frames| == |b.frames| && a.retry == b.retry && Pending(a) == Pending(b)
  }

  predicate Differ(a: State, b: State) {
    a.frames != b.frames || EventFrames(a) != EventFrames(b)
  }

  lemma {:induction false} FieldWithCr(st: State, name: string, v: string, num: ToNumber)
    requires IgnoresCr(num)
    ensures var a, b := FieldLine(st, name, v + "\r", num), FieldLine(st, name, v, num);
            if name == "id" || name == "event" || name == "data" then Alike(a, b) && Differ(a, b) else a == b
  {
    if name == "data" {
      JoinLonger(st.data, v);
    }
  }

  lemma {:induction false} CommentWithCr(st: State, line: string)
    requires line != ""
    ensures st.frames + [Comment((line + "\r")[1..])] != st.frames + [Comment(line[1..])]
  {
    var n := |st.frames|;
    assert |(line + "\r")[1..]| == |line[1..]| + 1;
    assert (st.frames + [Comment((line + "\r")[1..])])[n] != (st.frames + [Comment(line[1..])])[n];
  }

  /** Read without its CR, a line does the same unless it carries text, and then something else. */
  lemma {:induction false} LineWithCr(st: State, line: string, num: ToNumber)
    requires line != "" && IgnoresCr(num)
    ensures var a, b := SseParser.Step(st, line + "\r", num), SseParser.Step(st, line, num);
            if Carries(line) then Alike(a, b) && Differ(a, b) else a == b
  {
    IndexOfLonger(line, "\r", ':');
    var colon := IndexOf(line, ':');
    if line[0] == ':' {
      CommentWithCr(st, line);
    } else if colon >= 0 {
      var v := Unspaced(line[colon + 1..]);
      assert (line + "\r")[..colon] == line[..colon];
      assert Unspaced((line + "\r")[colon + 1..]) == v + "\r";
      FieldWithCr(st, line[..colon], v, num);
    }
  }

  /** The decoder's reading of an unfinished end, against the whole-text parser's. */
  lemma {:induction false} RestCompare(s: string, num: ToNumber)
    requires Sound(s, num) && !Closed(s)
    ensures var a, b := Fold(START, Lines(s), num), RestState(s, num);
            Alike(a, b) && (if EndsWithCr(s) && Carries(Trim(Lines(s)[|Lines(s)| - 1])) then Differ(a, b) else a == b)
  {
    if s == "" {
      EmptyLine();
      assert [""][..0] == [];
    } else {
      var t, c := s[..|s| - 1], s[|s| - 1];
      assert s == t + [c];
      LinesSnoc(t, c);
      var ls := Lines(s);
      var before, last := Fold(START, ls[..|ls| - 1], num), ls[|ls| - 1];
      FoldLast(START, ls, num);
      hide Lines, Fold, Carries;
      assert last[|last| - 1] == c;
      if c == '\r' {
        var l := Trim(last);
        assert last == l + "\r";
        if l == "" {
          LoneCrLine(before, num);
        } else {
          LineWithCr(before, l, num);
        }
      }
    }
  }

  lemma {:induction false} LoneCrLine(st: State, num: ToNumber)
    ensures SseParser.Step(st, "" + "\r", num) == st && !Carries("")
  {
    IndexOfNone("\r", ':');
  }

  // Counting frames.

  lemma {:induction false} OverEvents(c: State, st: State)
    ensures Pending(Over(c, st)) <==> Pending(c) || Pending(st)
  {
  }

  /** The state after the first block or the unfinished end, from `c` and from the start. */
  lemma {:induction false} Carried(c: State, s: string, num: ToNumber)
    requires Between(c) && (c == START || (s != "" && s[0] != '\n'))
    ensures var first := Lines(if Closed(s) then Block(s) else s);
            Fold(c, first, num) == Over(c, Fold(START, first, num))
  {
    var first := Lines(if Closed(s) then Block(s) else s);
    OverStart(c);
    OverStart(Fold(START, first, num));
    if c != START {
      NonblankFirst(s);
      hide Lines, Fold, Over;
      FoldOver(c, START, first, num);
    }
  }

  lemma {:induction false} NothingPending(c: State)
    requires Between(c) && !Pending(c)
    ensures c == START
  {
  }

  /** The whole-text parser never yields more frames than the decoder, but for one carried event. */
  lemma {:induction false} FrameBound(c: State, s: string, num: ToNumber)
    requires Between(c) && Sound(s, num)
    ensures |Whole(c, s, num)| <= |EventFrames(c)| + |Decoding(s, num)|
    decreases |s|, if Pending(c) then 2 else 1
  {
    hide Lines, Fold, Finish, Over, Sound, Closed, Block, Decoding;
    if Pending(c) && (s == "" || s[0] == '\n') {
      StartsBlank(s, num);
      IdleFlush(c, Lines(s), num);
      FrameBound(START, s, num);
    } else {
      if !Pending(c) {
        NothingPending(c);
      }
      Carried(c, s, num);
      if Closed(s) {
        ClosedBound(c, s, num);
      } else {
        OpenBound(c, s, num);
      }
    }
  }

  lemma {:induction false} StartsBlank(s: string, num: ToNumber)
    requires s == "" || s[0] == '\n'
    ensures Idle(Lines(s), num)
  {
    if s == "" {
      EmptyLine();
    } else {
      assert s == ['\n'] + s[1..];
      LinesCons('\n', s[1..]);
    }
  }

  lemma {:induction false} ClosedBound(c: State, s: string, num: ToNumber)
    requires Between(c) && Sound(s, num) && Closed(s)
    requires Fold(c, Lines(Block(s)), num) == Over(c, Fold(START, Lines(Block(s)), num))
    ensures |Whole(c, s, num)| <= |EventFrames(c)| + |Decoding(s, num)|
    decreases |s|, 0
  {
    var st := Fold(START, Lines(Block(s)), num);
    OverEvents(c, st);
    var kept := Kept(Over(c, st));
    assert Between(kept) && Pending(kept) == Pending(Over(c, st)) by {
      hide Fold, Lines;
    }
    hide Lines, Fold, Finish, Over, Sound, Closed, Block, Tail, Decoding, Pending;
    WholeTurn(c, st, s, num);
    DecodingClosed(s, num);
    SoundTail(s, num);
    if st.retry.Some? {
      FrameBound(kept, Tail(s), num);
    } else {
      FrameBound(START, Tail(s), num);
      NothingAtStart();
    }
  }

  lemma {:induction false} NothingAtStart()
    ensures Between(START) && EventFrames(START) == []
  {
  }

  lemma {:induction false} OpenBound(c: State, s: string, num: ToNumber)
    requires Between(c) && Sound(s, num) && !Closed(s)
    requires Fold(c, Lines(s), num) == Over(c, Fold(START, Lines(s), num))
    ensures |Whole(c, s, num)| <= |EventFrames(c)| + |Decoding(s, num)|
  {
    hide Lines, Fold, Sound, Closed, RestState;
    RestCompare(s, num);
    DecodingOpen(s, num);
  }

  // An effective line shows.

  predicate Active(st: State) {
    st.frames != [] || st.retry.Some? || Pending(st)
  }

  predicate OnlyComments(frames: seq<Frame>) {
    forall i :: 0 <= i < |frames| ==> frames[i].Comment?
  }

  lemma {:induction false} StepActive(st: State, line: string, num: ToNumber)
    requires line != ""
    ensures Active(st) || Effective(line, num) ==> Active(SseParser.Step(st, line, num))
    ensures OnlyComments(st.frames) ==> OnlyComments(SseParser.Step(st, line, num).frames)
  {
  }

  lemma {:induction false} FoldActive(st: State, lines: seq<string>, num: ToNumber)
    requires Nonblank(lines)
    ensures Active(st) || !Idle(lines, num) ==> Active(Fold(st, lines, num))
    ensures OnlyComments(st.frames) ==> OnlyComments(Fold(st, lines, num).frames)
    decreases |lines|
  {
    if lines != [] {
      hide Step, Active, OnlyComments, Effective;
      StepActive(st, lines[0], num);
      FoldActive(SseParser.Step(st, lines[0], num), lines[1..], num);
    }
  }

  lemma {:induction false} IdlePrefix(lines: seq<string>, more: seq<string>, num: ToNumber)
    requires Nonblank(lines) && Idle(lines, num)
    ensures Idle(lines + [""] + more, num)
    decreases |lines|
  {
    if lines == [] {
      assert ([] + [""] + more)[0] == "";
    } else {
      hide Effective;
      IdlePrefix(lines[1..], more, num);
      assert (lines + [""] + more)[1..] == lines[1..] + [""] + more;
    }
  }

  lemma {:induction false} LinesClosed(s: string) returns (more: seq<string>)
    requires Closed(s)
    ensures Lines(s) == Lines(Block(s)) + [""] + more
  {
    hide Lines;
    if BreakAt(s) >= 0 {
      assert s == Block(s) + "\n\n" + Tail(s);
      SplitLines(Block(s), Tail(s));
      more := Lines(Tail(s));
    } else {
      assert s == Block(s) + "\n" + "";
      LinesConcat(Block(s), "");
      EmptyLine();
      more := [];
      assert Lines(Block(s)) + [""] + [] == Lines(Block(s)) + [""];
    }
  }

  /** With an effective line before the first empty one, the first block does something. */
  lemma {:induction false} FirstActive(s: string, num: ToNumber)
    requires s != "" && s[0] != '\n' && !Idle(Lines(s), num)
    ensures var st := Fold(START, Lines(if Closed(s) then Block(s) else s), num);
            Active(st) && OnlyComments(st.frames)
  {
    NonblankFirst(s);
    var first := Lines(if Closed(s) then Block(s) else s);
    hide Lines, Fold, Idle;
    if Closed(s) {
      var more := LinesClosed(s);
      if Idle(first, num) {
        IdlePrefix(first, more, num);
      }
    }
    FoldActive(START, first, num);
  }

  lemma {:induction false} FirstFrame(x: seq<Frame>, rest: seq<Frame>, e: Frame, other: seq<Frame>)
    requires x != [] && x[0] != e
    ensures x + rest != [e] + other
  {
    assert (x + rest)[0] == x[0] && ([e] + other)[0] == e;
  }

  /** An event carried over a line that does something comes out later or changed, or costs a frame. */
  lemma {:induction false} CarriedShows(c: State, s: string, num: ToNumber)
    requires Between(c) && Pending(c) && Sound(s, num) && !Idle(Lines(s), num)
    ensures Whole(c, s, num) != EventFrames(c) + Decoding(s, num)
  {
    hide Lines, Fold, Finish, Over, Sound, Block, Tail, Decoding, Idle;
    if s == "" || s[0] == '\n' {
      StartsBlank(s, num);
    } else {
      FirstActive(s, num);
      Carried(c, s, num);
      if Closed(s) {
        ClosedShows(c, s, num);
      } else {
        OpenShows(c, s, num);
      }
    }
  }

  lemma {:induction false} ClosedShows(c: State, s: string, num: ToNumber)
    requires Between(c) && Pending(c) && Sound(s, num) && Closed(s)
    requires var st := Fold(START, Lines(Block(s)), num);
             Fold(c, Lines(Block(s)), num) == Over(c, st) && Active(st) && OnlyComments(st.frames)
    ensures Whole(c, s, num) != EventFrames(c) + Decoding(s, num)
  {
    var st := Fold(START, Lines(Block(s)), num);
    OverEvents(c, st);
    var e := Event(c.id, c.event, Join("\n", c.data));
    hide Lines, Fold, Finish, Over, Sound, Closed, Block, Tail, Decoding;
    WholeTurn(c, st, s, num);
    DecodingClosed(s, num);
    SoundTail(s, num);
    if st.retry.Some? {
      var shown := st.frames + HintFrames(st);
      assert shown[0] == if st.frames != [] then st.frames[0] else Retry(st.retry.value);
      FirstFrame(shown, Whole(Kept(Over(c, st)), Tail(s), num), e, Decoding(s, num));
    } else if st.frames != [] {
      var shown := st.frames + EventFrames(Over(c, st));
      assert shown[0] == st.frames[0];
      FirstFrame(shown, Whole(START, Tail(s), num), e, Decoding(s, num));
    } else {
      NothingAtStart();
      FrameBound(START, Tail(s), num);
    }
  }

  lemma {:induction false} OpenShows(c: State, s: string, num: ToNumber)
    requires Between(c) && Pending(c) && Sound(s, num) && !Closed(s)
    requires var st := Fold(START, Lines(s), num);
             Fold(c, Lines(s), num) == Over(c, st) && Active(st) && OnlyComments(st.frames)
    ensures Whole(c, s, num) != EventFrames(c) + Decoding(s, num)
  {
    RestCompare(s, num);
    DecodingOpen(s, num);
    hide Lines, Fold, Over, Sound, Closed, RestState, Finish, Between, Pending, FramesOf, EventFrames;
    StatesDiffer(c, Fold(START, Lines(s), num), RestState(s, num));
  }

  lemma {:induction false} CarriedFinish(c: State, st: State)
    requires Between(c) && Pending(c)
    ensures st.retry.Some? ==> Finish(Over(c, st)) == st.frames + HintFrames(st)
    ensures st.retry.None? ==>
            |EventFrames(Over(c, st))| == 1 && Finish(Over(c, st)) == st.frames + EventFrames(Over(c, st))
  {
    assert [] + st.frames == st.frames;
  }

  /** The end of the text finishes a carried event later or changed, or merges it with another. */
  lemma {:induction false} StatesDiffer(c: State, st: State, b: State)
    requires Between(c) && Pending(c) && Alike(st, b) && Active(st) && OnlyComments(st.frames)
    ensures Finish(Over(c, st)) != EventFrames(c) + FramesOf(b)
  {
    CarriedFinish(c, st);
    hide Over, Finish;
    var e := Event(c.id, c.event, Join("\n", c.data));
    var whole := Finish(Over(c, st));
    if st.frames != [] || st.retry.Some? {
      assert whole[0] == if st.frames != [] then st.frames[0] else Retry(st.retry.value);
      assert whole + [] == whole;
      FirstFrame(whole, [], e, FramesOf(b));
    } else {
      assert |whole| == 1 && |FramesOf(b)| == 1;
    }
  }

  // Agreement.

  lemma {:induction false} SameFront(front: seq<Frame>, a: seq<Frame>, b: seq<Frame>)
    ensures front + a == front + b <==> a == b
  {
    if front + a == front + b {
      assert a == (front + a)[|front|..] && b == (front + b)[|front|..];
    }
  }

  /** On an unfinished end the two agree exactly when it is in order. */
  lemma {:induction false} RestAgreement(s: string, num: ToNumber)
    requires Sound(s, num) && !Closed(s)
    ensures Whole(START, s, num) == Decoding(s, num) <==> RestAgrees(s, num)
  {
    RestCompare(s, num);
    DecodingOpen(s, num);
    EmptyLine();
    EndsWithCrNonempty(s);
    hide Lines, Fold, Sound, Closed, RestState, Carries;
    var a, b := Fold(START, Lines(s), num), RestState(s, num);
    FinishFrames(a, b);
  }

  lemma {:induction false} EndsWithCrNonempty(s: string)
    ensures EndsWithCr(s) ==> s != ""
  {
  }

  lemma {:induction false} FinishFrames(a: State, b: State)
    requires Alike(a, b) && (a == b || Differ(a, b))
    ensures Finish(a) == FramesOf(b) <==> a == b && !(a.retry.Some? && Pending(a))
  {
    assert a.frames + [] == a.frames && b.frames + [] == b.frames;
    if a.frames != b.frames {
      var n := |a.frames|;
      assert Finish(a)[..n] == a.frames && FramesOf(b)[..n] == b.frames;
    }
  }

  lemma {:induction false} Agreement(s: string, num: ToNumber)
    requires Sound(s, num)
    ensures Whole(START, s, num) == Decoding(s, num) <==> Agrees(s, num)
    decreases |s|
  {
    if !Closed(s) {
      RestAgreement(s, num);
    } else {
      hide Sound, Decoding, Block, Tail, Closed, Lines, Fold, Finish, Idle;
      SoundTail(s, num);
      Agreement(Tail(s), num);
      var st := Fold(START, Lines(Block(s)), num);
      OverStart(st);
      NothingAtStart();
      WholeTurn(START, st, s, num);
      DecodingClosed(s, num);
      if st.retry.None? {
        SameFront(st.frames + EventFrames(st), Whole(START, Tail(s), num), Decoding(Tail(s), num));
        assert st.frames + [] == st.frames;
      } else if !Pending(st) {
        KeptNothing(st);
        SameFront(st.frames + HintFrames(st), Whole(START, Tail(s), num), Decoding(Tail(s), num));
        assert FramesOf(st) == st.frames + HintFrames(st);
      } else {
        MixedAgreement(st, s, num);
      }
    }
  }

  lemma {:induction false} KeptNothing(st: State)
    requires !Pending(st)
    ensures Kept(st) == START
  {
  }

  lemma {:induction false} MixedAgreement(st: State, s: string, num: ToNumber)
    requires Sound(s, num) && Closed(s) && Sound(Tail(s), num) && st.retry.Some? && Pending(st)
    requires Whole(START, s, num) == (st.frames + HintFrames(st)) + Whole(Kept(st), Tail(s), num)
    requires Decoding(s, num) == FramesOf(st) + Decoding(Tail(s), num)
    ensures Whole(START, s, num) == Decoding(s, num) <==>
            Idle(Lines(Tail(s)), num) && Whole(START, Tail(s), num) == Decoding(Tail(s), num)
  {
    var kept, tail := Kept(st), Tail(s);
    var front := st.frames + HintFrames(st);
    assert Between(kept) && Pending(kept) && EventFrames(kept) == EventFrames(st);
    ConcatAssoc(front, EventFrames(st), Decoding(tail, num));
    SameFront(front, Whole(kept, tail, num), EventFrames(st) + Decoding(tail, num));
    hide Sound, Decoding, Block, Tail, Closed, Lines, Fold, Finish, Idle, Pending, EventFrames;
    if Idle(Lines(tail), num) {
      IdleFlush(kept, Lines(tail), num);
      SameFront(EventFrames(st), Whole(START, tail, num), Decoding(tail, num));
    } else {
      CarriedShows(kept, tail, num);
    }
  }

  /** The incremental decoder yields what `parseSseStream` makes of the whole text, however that is cut,
      if and only if after each mixed block no effective line comes before the first empty one, and the
      unfinished end is not mixed and shows no last CR. (No CR stands before a CR LF; a number reader
      that is asked about a last CR ignores it.) */
  lemma {:induction false} DecoderMatchesParser(chunks: seq<string>, num: ToNumber)
    requires var text := Flatten(chunks);
             StableNewlines(text) && (EndsWithCr(text) ==> IgnoresCr(num))
    ensures DecodeChunks("", chunks, num) == Parse(Flatten(chunks), num) <==> Agrees(Normalize(Flatten(chunks)), num)
  {
    var text := Flatten(chunks);
    ChunkingIndependent(chunks, num);
    NormalizedHasNoCrLf(text);
    NormalizedLastCr(text);
    hide Normalize, Emitted, FlushFrames, Agrees, Lines, IgnoresCr;
    Agreement(Normalize(text), num);
  }

  lemma {:induction false} NormalizedLastCr(a: string)
    ensures EndsWithCr(Normalize(a)) ==> EndsWithCr(a)
    decreases |a|
  {
    if |a| > 1 {
      var k := if a[0] == '\r' && a[1] == '\n' then 2 else 1;
      var n := Normalize(a[k..]);
      NormalizedLastCr(a[k..]);
      NormalizedHead(a[k..]);
      assert Normalize(a) == [if k == 2 then '\n' else a[0]] + n;
      assert n != "" ==> Normalize(a)[|Normalize(a)| - 1] == n[|n| - 1];
      assert a[k..] != "" ==> a[|a| - 1] == a[k..][|a[k..]| - 1];
    } else if a != "" {
      assert a[1..] == "" && Normalize(a) == a;
    }
  }

  /** A text whose last line carries text and a lone CR is one on which the two part. */
  lemma {:induction false} LastCrMatters(num: ToNumber)
    ensures DecodeChunks("", ["data: x\r"], num) == [Event(None, None, "x")]
    ensures Parse("data: x\r", num) == [Event(None, None, "x\r")]
  {
    hide Lines, Normalize, ParseLines, Fold, FlushFrames, BreakAt, Emitted, Rest;
    var t := "data: x\r";
    CrAtEnd();
    NormalizeFixed(t);
    NoBreak(t, num);
    PushChunk("", t, [], num);
    assert "" + t == t && [t] == [t] + [];
    FlushParses(t, num);
    OneLine("data: x");
    OneLine(t);
    assert "data: " + "x" == "data: x" && "data: " + "x\r" == t;
    assert ["data: x"] + ["", ""] == ["data: x", "", ""];
    DataLine("x", num);
    DataLine("x\r", num);
  }

  lemma {:induction false} CrAtEnd()
    ensures NoCrLf("data: x\r") && BreakAt("data: x\r") == -1 && Trim("data: x\r") == "data: x"
  {
    var t := "data: x\r";
    BreakFirst(t);
    assert '\n' !in t;
    assert t[..|t| - 1] == "data: x";
  }

  lemma {:induction false} OneLine(line: string)
    requires '\n' !in line
    ensures Lines(line) == [line]
  {
    if line != "" {
      OneLine(line[1..]);
      assert line == [line[0]] + line[1..];
    }
  }

  lemma {:induction false} DataLine(value: string, num: ToNumber)
    requires value != "" && value[0] != ' '
    ensures ParseLines(["data: " + value], num) == [Event(None, None, value)]
    ensures ParseLines(["data: " + value, "", ""], num) == [Event(None, None, value)]
  {
    var line := "data: " + value;
    assert line == "data" + (":" + (" " + value));
    assert line[4] == ':' && line[..4] == "data" && line[5..] == " " + value && (" " + value)[1..] == value;
    assert IndexOf(line[4..], ':') == 0 && IndexOf(line[3..], ':') == 1 && IndexOf(line[2..], ':') == 2;
    assert line[1..][1..] == line[2..] && line[2..][1..] == line[3..] && line[3..][1..] == line[4..];
    assert IndexOf(line[1..], ':') == 3 && IndexOf(line, ':') == 4;
    assert SseParser.Step(START, line, num) == START.(data := [value]);
    assert [] + [value] == [value];
    FoldOne(START, line, num);
    assert [line] + ["", ""] == [line, "", ""];
    FoldBlank([line], num);
    assert Join("\n", [value]) == value;
  }
}
