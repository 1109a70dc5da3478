/** The client's event-stream parser, on whole texts. */
module SseParser {
  import opened Seqs

  datatype Frame =
    | Event(id: Option<string>, event: Option<string>, data: string)
    | Comment(text: string)
    | Retry(ms: nat)

  /** JavaScript's `Number`, on strings: the integer it yields, if it yields one. */
  type ToNumber = string -> Option<int>

  /** `text.replace(/\r\n/g, '\n')`. */
  function Normalize(s: string): string {
    if s == "" then ""
    else if |s| >= 2 && s[0] == '\r' && s[1] == '\n' then "\n" + Normalize(s[2..])
    else [s[0]] + Normalize(s[1..])
  }

  /** `text.split('\n')`. */
  function Lines(s: string): (r: seq<string>)
    ensures r != []
  {
    if s == "" then [""]
    else
      var rest := Lines(s[1..]);
      if s[0] == '\n' then [""] + rest else [[s[0]] + rest[0]] + rest[1..]
  }

  datatype State = State(data: seq<string>, id: Option<string>, event: Option<string>, retry: Option<nat>,
                         frames: seq<Frame>)

  const START := State([], None, None, None, [])

  predicate Pending(st: State) {
    st.data != [] || st.id != None || st.event != None
  }

  function FlushEvent(st: State): State {
    if !Pending(st) then st
    else st.(frames := st.frames + [Event(st.id, st.event, Join("\n", st.data))], data := [], id := None, event := None)
  }

  function BlankLine(st: State): State {
    match st.retry
    case Some(ms) => st.(frames := st.frames + [Retry(ms)], retry := None)
    case None => FlushEvent(st)
  }

  /** The position of the first `c`, or -1. */
  function IndexOf(s: string, c: char): (r: int)
    ensures -1 <= r < |s|
    ensures r >= 0 ==> s[r] == c
  {
    if s == "" then -1
    else if s[0] == c then 0
    else
      var r := IndexOf(s[1..], c);
      if r < 0 then -1 else r + 1
  }

  function FieldLine(st: State, name: string, value: string, num: ToNumber): State {
    if name == "id" then st.(id := Some(value))
    else if name == "event" then st.(event := Some(value))
    else if name == "data" then st.(data := st.data + [value])
    else if name == "retry" then
      match num(value)
      case Some(n) => if n >= 0 then st.(retry := Some(n)) else st
      case None => st
    else st
  }

  /** One leading blank of a field value is dropped. */
  function Unspaced(value: string): string {
    if value != "" && value[0] == ' ' then value[1..] else value
  }

  function Step(st: State, line: string, num: ToNumber): State {
    if line == "" then BlankLine(st)
    else if line[0] == ':' then st.(frames := st.frames + [Comment(line[1..])])
    else
      var colon := IndexOf(line, ':');
      if colon < 0 then st
      else FieldLine(st, line[..colon], Unspaced(line[colon + 1..]), num)
  }

  function Fold(st: State, lines: seq<string>, num: ToNumber): State
    decreases |lines|
  {
    if lines == [] then st else Fold(Step(st, lines[0], num), lines[1..], num)
  }

  function Finish(st: State): seq<Frame> {
    match st.retry
    case Some(ms) => st.frames + [Retry(ms)]
    case None => FlushEvent(st).frames
  }

  function ParseLines(lines: seq<string>, num: ToNumber): seq<Frame> {
    Finish(Fold(START, lines, num))
  }

  function Parse(text: string, num: ToNumber): seq<Frame> {
    ParseLines(Lines(Normalize(text)), num)
  }

  /** `parseSseStream`. */
  method ParseSseStream(text: string, num: ToNumber) returns (frames: seq<Frame>)
    ensures frames == Parse(text, num)
  {
    var lines := Lines(Normalize(text));
    frames := [];
    var data: seq<string> := [];
    var id: Option<string> := None;
    var event: Option<string> := None;
    var retry: Option<nat> := None;
    for i := 0 to |lines|
      invariant Fold(State(data, id, event, retry, frames), lines[i..], num) == Fold(START, lines, num)
    {
      var line := lines[i];
      ghost var st := State(data, id, event, retry, frames);
      assert lines[i..][0] == line && lines[i..][1..] == lines[i + 1..];
      if line == "" {
        if retry != None {
          frames := frames + [Retry(retry.value)];
          retry := None;
        } else if data != [] || id != None || event != None {
          frames := frames + [Event(id, event, Join("\n", data))];
          data, id, event := [], None, None;
        }
      } else if line[0] == ':' {
        frames := frames + [Comment(line[1..])];
      } else {
        var colon := IndexOf(line, ':');
        if colon >= 0 {
          var name, value := line[..colon], Unspaced(line[colon + 1..]);
          if name == "id" {
            id := Some(value);
          } else if name == "event" {
            event := Some(value);
          } else if name == "data" {
            data := data + [value];
          } else if name == "retry" {
            var parsed := num(value);
            if parsed != None && parsed.value >= 0 {
              retry := Some(parsed.value);
            }
          }
        }
      }
      assert State(data, id, event, retry, frames) == Step(st, line, num);
    }
    if retry != None {
      frames := frames + [Retry(retry.value)];
    } else if data != [] || id != None || event != None {
      frames := frames + [Event(id, event, Join("\n", data))];
    }
  }

  // Reading a text in two parts.

  lemma {:induction false} LinesCons(c: char, s: string)
    ensures Lines([c] + s) == (if c == '\n' then [""] + Lines(s) else [[c] + Lines(s)[0]] + Lines(s)[1..])
  {
    assert ([c] + s)[1..] == s;
  }

  lemma {:induction false} HeadConcat(c: char, a: seq<string>, b: seq<string>)
    requires a != []
    ensures [[c] + (a + b)[0]] + (a + b)[1..] == ([[c] + a[0]] + a[1..]) + b
    ensures [""] + (a + b) == ([""] + a) + b
  {
  }

  lemma {:induction false} StringCons(x: string, y: string)
    requires x != ""
    ensures x == [x[0]] + x[1..] && x + "\n" + y == [x[0]] + (x[1..] + "\n" + y)
  {
  }

  lemma {:induction false} LinesConcat(x: string, y: string)
    ensures Lines(x + "\n" + y) == Lines(x) + Lines(y)
  {
    if x == "" {
      LinesCons('\n', y);
      assert x + "\n" + y == ['\n'] + y;
    } else {
      hide *;
      StringCons(x, y);
      LinesConcat(x[1..], y);
      LinesCons(x[0], x[1..] + "\n" + y);
      LinesCons(x[0], x[1..]);
      HeadConcat(x[0], Lines(x[1..]), Lines(y));
    }
  }

  lemma {:induction false} FoldConcat(st: State, a: seq<string>, b: seq<string>, num: ToNumber)
    ensures Fold(st, a + b, num) == Fold(Fold(st, a, num), b, num)
    decreases |a|
  {
    if a == [] {
      assert a + b == b;
    } else {
      assert (a + b)[1..] == a[1..] + b;
      FoldConcat(Step(st, a[0], num), a[1..], b, num);
    }
  }

  /** Frames already emitted do not influence what follows. */
  lemma {:induction false} StepShift(st: State, before: seq<Frame>, line: string, num: ToNumber)
    ensures var shifted := st.(frames := before + st.frames);
            Step(shifted, line, num) == Step(st, line, num).(frames := before + Step(st, line, num).frames)
  {
    var shifted := st.(frames := before + st.frames);
    assert forall f: Frame :: (before + st.frames) + [f] == before + (st.frames + [f]);
  }

  lemma {:induction false} FoldShift(st: State, before: seq<Frame>, lines: seq<string>, num: ToNumber)
    ensures var shifted := st.(frames := before + st.frames);
            Fold(shifted, lines, num) == Fold(st, lines, num).(frames := before + Fold(st, lines, num).frames)
    decreases |lines|
  {
    if lines != [] {
      StepShift(st, before, lines[0], num);
      FoldShift(Step(st, lines[0], num), before, lines[1..], num);
    }
  }

  lemma {:induction false} FinishShift(st: State, before: seq<Frame>)
    ensures Finish(st.(frames := before + st.frames)) == before + Finish(st)
  {
    assert forall f: Frame :: (before + st.frames) + [f] == before + (st.frames + [f]);
  }
}
