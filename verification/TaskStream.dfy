/** The event reducer and the reconnecting client on top of it. */
module TaskStream {
  import opened Seqs
  import opened SseParser
  import opened SseStream
  import opened TaskStatus
  import SseDecoder

  datatype Display = ShowSuccess | ShowFailed | ShowCancelled

  /** The display of a terminal status; `terminalDisplayFor` throws on any other. */
  function DisplayFor(s: Status): Display
    requires IsTerminal(s)
  {
    match s
    case Completed => ShowSuccess
    case Failed => ShowFailed
    case Cancelled => ShowCancelled
  }

  /** A projected event: its sequence, its type, and the task status it reports, if any. */
  datatype TaskEvent = TaskEvent(sequence: int, eventType: string, status: Option<Status>)

  // Decoding frames.

  datatype Decoded =
    | Projection(event: TaskEvent) | Terminal(display: Display) | Heartbeat | RetryHint(ms: nat) | Ignore

  /** JavaScript's `Number` and `trim`, and the JSON readers of the two payloads. */
  datatype Js = Js(
    number: ToNumber, trim: string -> string,
    display: string -> Option<Display>, payload: string -> Option<Option<Status>>)

  const STREAMABLE: set<string> := {
    "TASK_CREATED", "GOAL_UNDERSTANDING_COMPLETED", "PLAN_ACTIVATED", "USER_INPUT_REQUESTED", "TASK_FAILED",
    "TASK_CANCELLED"
  }

  function OrEmpty(s: Option<string>): string {
    match s
    case Some(v) => v
    case None => ""
  }

  /** `decodeSseFrame`. */
  function DecodeFrame(f: Frame, js: Js): Decoded {
    match f
    case Retry(ms) => RetryHint(ms)
    case Comment(text) => if js.trim(text) == "ping" then Heartbeat else Ignore
    case Event(id, event, data) =>
      if OrEmpty(event) == "terminal" then
        match js.display(data)
        case Some(d) => Terminal(d)
        case None => Ignore
      else if OrEmpty(event) in STREAMABLE then
        match js.number(OrEmpty(id))
        case Some(sequence) =>
          if sequence < 1 then Ignore
          else
            (match js.payload(data)
             case Some(status) => Projection(TaskEvent(sequence, OrEmpty(event), status))
             case None => Ignore)
        case None => Ignore
      else Ignore
  }

  function DecodeFrames(fs: seq<Frame>, js: Js): seq<Decoded> {
    if fs == [] then [] else [DecodeFrame(fs[0], js)] + DecodeFrames(fs[1..], js)
  }

  /** What the server meant to say. */
  function MeantEvents(events: seq<ServerEvent>, js: Js): seq<Decoded>
    requires forall k :: 0 <= k < |events| ==> Readable(events[k], js)
  {
    if events == [] then []
    else
      assert Readable(events[0], js);
      [Projection(TaskEvent(events[0].sequence, events[0].eventType, js.payload(events[0].json).value))]
      + MeantEvents(events[1..], js)
  }

  function Meant(r: Reconnect, js: Js): seq<Decoded>
    requires Meaningful(r, js)
  {
    match r.terminal
    case Some(json) => [Terminal(js.display(json).value)]
    case None => MeantEvents(r.events, js) + (if r.heartbeat then [Heartbeat] else []) + [RetryHint(RETRY_MS)]
  }

  /** A streamable event, numbered from 1, that the client reads back: its decimal and its payload. */
  predicate Readable(e: ServerEvent, js: Js) {
    && e.sequence >= 1 && e.eventType in STREAMABLE
    && js.number(Decimal(e.sequence)) == Some(e.sequence) && js.payload(e.json).Some?
  }

  /** The readers undo the server's writers on what this response holds: the retry hint, the ping comment,
      the terminal payload, and each event's number and payload. */
  predicate Meaningful(r: Reconnect, js: Js) {
    && js.number(Decimal(RETRY_MS)) == Some(RETRY_MS) && js.trim(" ping") == "ping"
    && (r.terminal.Some? ==> js.display(r.terminal.value).Some?)
    && (forall k :: 0 <= k < |r.events| ==> Readable(r.events[k], js))
  }

  /** A projection is exactly an event of a streamable type with a positive number and a readable payload; a
      terminal display exactly a terminal frame with a readable one; a heartbeat exactly a ping comment. */
  lemma {:induction false} DecodedExactlyWhen(f: Frame, js: Js, e: TaskEvent, d: Display, ms: nat)
    ensures DecodeFrame(f, js) == Projection(e) <==>
            && f.Event? && f.event == Some(e.eventType) && e.eventType in STREAMABLE && e.sequence >= 1
            && js.number(OrEmpty(f.id)) == Some(e.sequence) && js.payload(f.data) == Some(e.status)
    ensures DecodeFrame(f, js) == Terminal(d) <==>
            f.Event? && f.event == Some("terminal") && js.display(f.data) == Some(d)
    ensures DecodeFrame(f, js) == Heartbeat <==> f.Comment? && js.trim(f.text) == "ping"
    ensures DecodeFrame(f, js) == RetryHint(ms) <==> f == Retry(ms)
  {
    assert "" !in STREAMABLE && "terminal" !in STREAMABLE;
  }

  lemma {:induction false} DecodeConcat(a: seq<Frame>, b: seq<Frame>, js: Js)
    ensures DecodeFrames(a + b, js) == DecodeFrames(a, js) + DecodeFrames(b, js)
  {
    if a == [] {
      assert a + b == b;
    } else {
      hide DecodeFrame;
      assert (a + b)[1..] == a[1..] + b;
      DecodeConcat(a[1..], b, js);
    }
  }

  lemma {:induction false} DecodeOne(f: Frame, js: Js)
    ensures DecodeFrames([f], js) == [DecodeFrame(f, js)]
  {
    assert [f][1..] == [];
  }

  lemma {:induction false} DecodeEvents(events: seq<ServerEvent>, js: Js)
    requires forall k :: 0 <= k < |events| ==> Readable(events[k], js)
    ensures DecodeFrames(EventFrames(events), js) == MeantEvents(events, js)
  {
    if events != [] {
      var e := events[0];
      assert forall k :: 0 <= k < |events[1..]| ==> events[1..][k] == events[k + 1];
      DecodeEvents(events[1..], js);
      var f := Event(Some(Decimal(e.sequence)), Some(e.eventType), e.json);
      assert EventFrames(events) == [f] + EventFrames(events[1..]);
      DecodeConcat([f], EventFrames(events[1..]), js);
      DecodeOne(f, js);
      assert e.eventType != "terminal" by {
        assert "terminal" !in STREAMABLE;
      }
    }
  }

  /** End to end: cut as it may be, the printed response is decoded to what the server meant. */
  lemma {:induction false} ClientSeesServer(r: Reconnect, chunks: seq<string>, js: Js)
    requires CleanReconnect(r) && Meaningful(r, js) && Flatten(chunks) == PrintAll(ServerFrames(r))
    ensures DecodeFrames(SseDecoder.DecodeChunks("", chunks, js.number), js) == Meant(r, js)
  {
    hide Decimal, EventFrames, MeantEvents, DecodeFrames, PrintAll, ServerFrames;
    PrintedFramesArrive(r, chunks, js.number);
    match r.terminal {
      case Some(json) => DecodeOne(Event(None, Some("terminal"), json), js);
      case None =>
        var ping := if r.heartbeat then [Comment(" ping")] else [];
        DecodeConcat(EventFrames(r.events) + ping, [Retry(RETRY_MS)], js);
        DecodeConcat(EventFrames(r.events), ping, js);
        DecodeEvents(r.events, js);
        DecodeOne(Comment(" ping"), js);
        DecodeOne(Retry(RETRY_MS), js);
        DecodeNone(js);
    }
  }

  lemma {:induction false} DecodeNone(js: Js)
    ensures DecodeFrames([], js) == []
  {
  }

  // The reducer.

  datatype StreamState = StreamState(lastSequence: int, needsSnapshot: bool, display: Option<Display>)

  const INITIAL := StreamState(0, false, None)

  datatype Action = OnEvent(event: TaskEvent) | OnTerminal(shown: Display) | OnSnapshot(lastSequence: int)

  /** `reduceTaskStream`. */
  function Reduce(s: StreamState, a: Action): StreamState {
    match a
    case OnTerminal(d) => s.(display := Some(d), needsSnapshot := false)
    case OnSnapshot(n) => s.(lastSequence := Max(s.lastSequence, n), needsSnapshot := false)
    case OnEvent(e) =>
      if s.display != None then s
      else if e.sequence <= s.lastSequence then s
      else if e.sequence != s.lastSequence + 1 then s.(needsSnapshot := true)
      else
        StreamState(e.sequence, false,
              if e.status.Some? && IsTerminal(e.status.value) then Some(DisplayFor(e.status.value)) else None)
  }

  function ReduceAll(s: StreamState, actions: seq<Action>): StreamState {
    if actions == [] then s else Reduce(ReduceAll(s, actions[..|actions| - 1]), actions[|actions| - 1])
  }

  /** An event is accepted when it moves the sequence forward. */
  predicate Accepts(s: StreamState, a: Action) {
    a.OnEvent? && Reduce(s, a).lastSequence != s.lastSequence
  }

  /** The sequences accepted along the way. */
  function Accepted(s: StreamState, actions: seq<Action>): seq<int> {
    if actions == [] then []
    else
      var before := actions[..|actions| - 1];
      var last := actions[|actions| - 1];
      Accepted(s, before) + (if Accepts(ReduceAll(s, before), last) then [last.event.sequence] else [])
  }

  /** Strictly increasing, above `low` and at most `high`. */
  ghost predicate Ascending(s: seq<int>, low: int, high: int) {
    && (forall i :: 0 <= i < |s| ==> low < s[i] <= high)
    && (forall i, j :: 0 <= i < j < |s| ==> s[i] < s[j])
  }

  /** Along every run: the sequence never decreases, an accepted event is the very next one, so the
      accepted sequences strictly increase, and they never pass the water mark. */
  lemma {:induction false} AcceptedInOrder(s: StreamState, actions: seq<Action>)
    ensures ReduceAll(s, actions).lastSequence >= s.lastSequence
    ensures Ascending(Accepted(s, actions), s.lastSequence, ReduceAll(s, actions).lastSequence)
  {
    if actions != [] {
      var before := actions[..|actions| - 1];
      AcceptedInOrder(s, before);
      ReduceMonotone(ReduceAll(s, before), actions[|actions| - 1]);
    }
  }

  lemma {:induction false} ReduceMonotone(s: StreamState, a: Action)
    ensures Reduce(s, a).lastSequence >= s.lastSequence
    ensures Accepts(s, a) ==> a.OnEvent? && a.event.sequence == s.lastSequence + 1 == Reduce(s, a).lastSequence
  {
  }

  /** An event is accepted exactly when nothing terminal is shown and it is the very next one; a gap asks for
      a snapshot, and a snapshot, a terminal frame or an accepted event settles the request. */
  lemma {:induction false} AcceptsExactlyWhen(s: StreamState, a: Action)
    ensures Accepts(s, a) <==> a.OnEvent? && s.display.None? && a.event.sequence == s.lastSequence + 1
    ensures Reduce(s, a).needsSnapshot <==>
            match a
            case OnEvent(e) =>
              if s.display.Some? || e.sequence <= s.lastSequence then s.needsSnapshot
              else e.sequence > s.lastSequence + 1
            case _ => false
  {
  }

  /** The last sequence is the largest of all snapshots and accepted events, or 0 without any. */
  lemma {:induction false} LastSequenceMeaning(actions: seq<Action>)
    ensures var last := ReduceAll(INITIAL, actions).lastSequence;
            && (forall k :: 0 <= k < |actions| && actions[k].OnSnapshot? ==> actions[k].lastSequence <= last)
            && (forall k :: 0 <= k < |Accepted(INITIAL, actions)| ==> Accepted(INITIAL, actions)[k] <= last)
            && (last == 0 || OnSnapshot(last) in actions || last in Accepted(INITIAL, actions))
  {
    if actions != [] {
      var before, a := actions[..|actions| - 1], actions[|actions| - 1];
      assert actions == before + [a];
      LastSequenceMeaning(before);
      var w, was := ReduceAll(INITIAL, before), Accepted(INITIAL, before);
      AcceptsExactlyWhen(w, a);
      ReduceMonotone(w, a);
      assert forall k :: 0 <= k < |before| ==> actions[k] == before[k];
      assert forall x :: x in was ==> x in Accepted(INITIAL, actions);
    }
  }

  /** The status of which `d` is the display. */
  predicate Names(status: Option<Status>, d: Display) {
    match d
    case ShowSuccess => status == Some(Completed)
    case ShowFailed => status == Some(Failed)
    case ShowCancelled => status == Some(Cancelled)
  }

  predicate SaysNothing(status: Option<Status>) {
    !Names(status, ShowSuccess) && !Names(status, ShowFailed) && !Names(status, ShowCancelled)
  }

  /** The last word on the display: a terminal frame for it, or an accepted event that reported its status. */
  ghost predicate LastWord(s: StreamState, actions: seq<Action>, d: Display) {
    if actions == [] then s.display == Some(d)
    else
      var before, a := actions[..|actions| - 1], actions[|actions| - 1];
      var w := ReduceAll(s, before);
      if a.OnTerminal? then a.shown == d
      else if Accepts(w, a) && !SaysNothing(a.event.status) then Names(a.event.status, d)
      else LastWord(s, before, d)
  }

  /** Over every run, what is shown is the last word: COMPLETED shows success, FAILED failure and CANCELLED
      cancellation, and nothing else is shown. */
  lemma {:induction false} DisplayMeaning(s: StreamState, actions: seq<Action>, d: Display)
    ensures ReduceAll(s, actions).display == Some(d) <==> LastWord(s, actions, d)
  {
    if actions != [] {
      DisplayMeaning(s, actions[..|actions| - 1], d);
      AcceptsExactlyWhen(ReduceAll(s, actions[..|actions| - 1]), actions[|actions| - 1]);
    }
  }

  /** The event accepted last. */
  ghost function LastAccepted(s: StreamState, actions: seq<Action>): Option<TaskEvent> {
    if actions == [] then None
    else
      var before, a := actions[..|actions| - 1], actions[|actions| - 1];
      if Accepts(ReduceAll(s, before), a) then Some(a.event) else LastAccepted(s, before)
  }

  /** Without terminal frames the display is that of the status which the last accepted event reported. */
  lemma {:induction false} DisplayOfLastAccepted(actions: seq<Action>, d: Display)
    requires forall k :: 0 <= k < |actions| ==> !actions[k].OnTerminal?
    ensures var e := LastAccepted(INITIAL, actions);
            ReduceAll(INITIAL, actions).display == Some(d) <==> e.Some? && Names(e.value.status, d)
    ensures var e := LastAccepted(INITIAL, actions);
            ReduceAll(INITIAL, actions).display.None? <==> e.None? || SaysNothing(e.value.status)
  {
    if actions != [] {
      var before, a := actions[..|actions| - 1], actions[|actions| - 1];
      assert forall k :: 0 <= k < |before| ==> before[k] == actions[k];
      DisplayOfLastAccepted(before, d);
      AcceptsExactlyWhen(ReduceAll(INITIAL, before), a);
    }
  }

  ghost predicate CountsFrom(s: seq<int>, low: int) {
    forall i :: 0 <= i < |s| ==> s[i] == low + 1 + i
  }

  /** Without snapshots the accepted events are consecutive, and exactly the water mark counts them. */
  lemma {:induction false} ConsecutiveBetweenSnapshots(s: StreamState, actions: seq<Action>)
    requires forall k :: 0 <= k < |actions| ==> !actions[k].OnSnapshot?
    ensures CountsFrom(Accepted(s, actions), s.lastSequence)
    ensures |Accepted(s, actions)| == ReduceAll(s, actions).lastSequence - s.lastSequence
  {
    if actions != [] {
      ConsecutiveBetweenSnapshots(s, actions[..|actions| - 1]);
    }
  }

  /** Once a terminal display is set it never goes back to none, no event changes the state any
      more, and only another terminal frame can replace the display. */
  lemma {:induction false} TerminalIsSticky(s: StreamState, actions: seq<Action>)
    requires s.display.Some?
    ensures ReduceAll(s, actions).display.Some?
    ensures forall e :: Reduce(ReduceAll(s, actions), OnEvent(e)) == ReduceAll(s, actions)
    ensures (forall k :: 0 <= k < |actions| ==> !actions[k].OnTerminal?) ==> ReduceAll(s, actions).display == s.display
  {
    if actions != [] {
      var before := actions[..|actions| - 1];
      TerminalIsSticky(s, before);
      assert forall k :: 0 <= k < |before| ==> before[k] == actions[k];
    }
  }

  /** A gap asks for a snapshot and accepts nothing; the snapshot clears the request. */
  lemma {:induction false} GapWaitsForSnapshot(s: StreamState, e: TaskEvent, n: int)
    requires s.display == None && e.sequence > s.lastSequence + 1
    ensures var gap := Reduce(s, OnEvent(e));
            && gap.needsSnapshot && gap.lastSequence == s.lastSequence && !Accepts(s, OnEvent(e))
            && !Reduce(gap, OnSnapshot(n)).needsSnapshot
            && (n >= e.sequence - 1 ==> (Accepts(Reduce(gap, OnSnapshot(n)), OnEvent(e)) <==> n == e.sequence - 1))
  {
  }

  // The client.

  /** The saved cursor as a number; a cursor that is no number yields NaN, and so does its maximum. */
  datatype Cursor = Unset | At(n: int) | NotANumber

  function Advance(c: Cursor, n: int): Cursor {
    match c
    case Unset => At(Max(0, n))
    case At(m) => At(Max(m, n))
    case NotANumber => NotANumber
  }

  datatype Input =
    | Connect(cursor: Option<Cursor>)
    | Disconnect
    | Message(frame: Decoded)
    | SnapshotArrived(status: Status, lastEventSequence: int)

  datatype View = View(state: StreamState, cursor: Cursor, disposed: bool)

  const FRESH := View(INITIAL, Unset, false)

  function ApplyTerminal(v: View, d: Display): View {
    if v.state.display == Some(d) then v else v.(state := Reduce(v.state, OnTerminal(d)))
  }

  function Handle(v: View, input: Input): View {
    match input
    case Connect(c) => v.(disposed := false, cursor := if c.Some? then c.value else v.cursor)
    case Disconnect => v.(disposed := true)
    case Message(Projection(e)) =>
      var next := Reduce(v.state, OnEvent(e));
      if next == v.state then v
      else if next.needsSnapshot then v.(state := next)
      else v.(state := next, cursor := At(e.sequence))
    case Message(Terminal(d)) => ApplyTerminal(v, d)
    case Message(_) => v
    case SnapshotArrived(status, n) =>
      if v.disposed then v
      else
        var w := v.(state := Reduce(v.state, OnSnapshot(n)), cursor := Advance(v.cursor, n));
        if IsTerminal(status) then ApplyTerminal(w, DisplayFor(status)) else w
  }

  function HandleAll(v: View, inputs: seq<Input>): View {
    if inputs == [] then v else Handle(HandleAll(v, inputs[..|inputs| - 1]), inputs[|inputs| - 1])
  }

  class TaskEventClient {
    var state: StreamState
    var lastEventId: Cursor
    var disposed: bool

    constructor ()
      ensures Current() == FRESH
    {
      state, lastEventId, disposed := INITIAL, Unset, false;
    }

    function Current(): View
      reads this
    {
      View(state, lastEventId, disposed)
    }

    method Connect(cursor: Option<Cursor>)
      modifies this
      ensures Current() == Handle(old(Current()), Input.Connect(cursor))
    {
      disposed := false;
      if cursor.Some? {
        lastEventId := cursor.value;
      }
    }

    method Disconnect()
      modifies this
      ensures Current() == Handle(old(Current()), Input.Disconnect)
    {
      disposed := true;
    }

    /** `onMessage`. */
    method OnMessage(frame: Decoded)
      modifies this
      ensures Current() == Handle(old(Current()), Message(frame))
    {
      if frame.Projection? {
        ApplyEvent(frame.event);
      } else if frame.Terminal? {
        ApplyTerminalDisplay(frame.display);
      }
    }

    /** `_applyEvent`. */
    method ApplyEvent(event: TaskEvent)
      modifies this
      ensures Current() == Handle(old(Current()), Message(Projection(event)))
    {
      var next := Reduce(state, OnEvent(event));
      if next == state {
        return;
      }
      state := next;
      if next.needsSnapshot {
        return;
      }
      lastEventId := At(event.sequence);
    }

    /** `_applyTerminal`. */
    method ApplyTerminalDisplay(display: Display)
      modifies this
      ensures Current() == ApplyTerminal(old(Current()), display)
    {
      if state.display == Some(display) {
        return;
      }
      state := Reduce(state, OnTerminal(display));
    }

    /** `_reconcileSnapshot`, once the snapshot has been fetched. */
    method ReconcileSnapshot(status: Status, lastEventSequence: int)
      modifies this
      ensures Current() == Handle(old(Current()), SnapshotArrived(status, lastEventSequence))
    {
      if disposed {
        return;
      }
      state := Reduce(state, OnSnapshot(lastEventSequence));
      lastEventId := Advance(lastEventId, lastEventSequence);
      if IsTerminal(status) {
        ApplyTerminalDisplay(DisplayFor(status));
      }
    }
  }

  function CursorValue(c: Cursor): int {
    if c.At? then c.n else 0
  }

  /** The cursor sent on reconnect never falls behind the accepted events. */
  ghost predicate CursorCovers(v: View) {
    v.state.lastSequence >= 0 && (v.cursor == NotANumber || CursorValue(v.cursor) >= v.state.lastSequence)
  }

  /** One input keeps the cursor ahead exactly when it is not a `connect` with an older cursor. */
  lemma {:induction false} CursorStep(v: View, input: Input)
    requires CursorCovers(v)
    ensures CursorCovers(Handle(v, input)) <==>
            !(input.Connect? && input.cursor.Some? && input.cursor.value != NotANumber
              && CursorValue(input.cursor.value) < v.state.lastSequence)
  {
  }

  /** A saved cursor may only be given where it is not older than what has been accepted. */
  ghost predicate GoodConnects(v: View, inputs: seq<Input>) {
    forall k :: 0 <= k < |inputs| && inputs[k].Connect? && inputs[k].cursor.Some?
      && inputs[k].cursor.value != NotANumber
      ==> CursorValue(inputs[k].cursor.value) >= HandleAll(v, inputs[..k]).state.lastSequence
  }

  lemma {:induction false} CursorNeverBehind(inputs: seq<Input>)
    requires GoodConnects(FRESH, inputs)
    ensures CursorCovers(HandleAll(FRESH, inputs))
  {
    if inputs != [] {
      var n := |inputs| - 1;
      var before := inputs[..n];
      forall k | 0 <= k < n
        ensures before[..k] == inputs[..k] && before[k] == inputs[k]
      {
      }
      CursorNeverBehind(before);
      CursorStep(HandleAll(FRESH, before), inputs[n]);
    }
  }

  /** Started without a saved cursor, the cursor is the water mark, at every point of every run. */
  lemma {:induction false} CursorIsWaterMark(inputs: seq<Input>)
    requires forall k :: 0 <= k < |inputs| && inputs[k].Connect? ==> inputs[k].cursor == None
    ensures var v := HandleAll(FRESH, inputs);
            v.cursor != NotANumber && CursorValue(v.cursor) == v.state.lastSequence >= 0
  {
    if inputs != [] {
      var before := inputs[..|inputs| - 1];
      assert forall k :: 0 <= k < |before| ==> before[k] == inputs[k];
      CursorIsWaterMark(before);
    }
  }

  /** The reducer actions behind a run of inputs. */
  function ActionsOf(v: View, input: Input): seq<Action> {
    match input
    case Message(Projection(e)) => [OnEvent(e)]
    case Message(Terminal(d)) => if v.state.display == Some(d) then [] else [OnTerminal(d)]
    case SnapshotArrived(status, n) =>
      if v.disposed then []
      else
        [OnSnapshot(n)]
        + (if IsTerminal(status) && v.state.display != Some(DisplayFor(status)) then [OnTerminal(DisplayFor(status))]
           else [])
    case _ => []
  }

  function Trace(v: View, inputs: seq<Input>): seq<Action> {
    if inputs == [] then []
    else
      var before := inputs[..|inputs| - 1];
      Trace(v, before) + ActionsOf(HandleAll(v, before), inputs[|inputs| - 1])
  }

  lemma {:induction false} ReduceConcat(s: StreamState, a: seq<Action>, b: seq<Action>)
    ensures ReduceAll(s, a + b) == ReduceAll(ReduceAll(s, a), b)
  {
    if b == [] {
      assert a + b == a;
    } else {
      hide Reduce;
      assert (a + b)[..|a + b| - 1] == a + b[..|b| - 1];
      ReduceConcat(s, a, b[..|b| - 1]);
    }
  }

  lemma {:induction false} InputRefines(v: View, input: Input)
    ensures Handle(v, input).state == ReduceAll(v.state, ActionsOf(v, input))
  {
    var more := ActionsOf(v, input);
    if |more| == 2 {
      assert more == [more[0]] + [more[1]];
      ReduceConcat(v.state, [more[0]], [more[1]]);
      ReduceOne(v.state, more[0]);
      ReduceOne(Reduce(v.state, more[0]), more[1]);
    } else if |more| == 1 {
      assert more == [more[0]];
      ReduceOne(v.state, more[0]);
    }
  }

  lemma {:induction false} ReduceOne(s: StreamState, a: Action)
    ensures ReduceAll(s, [a]) == Reduce(s, a)
  {
    assert [a][..0] == [];
    assert ReduceAll(s, [a]) == Reduce(ReduceAll(s, [a][..0]), a);
  }

  /** The client's state is the reducer's state after the actions it dispatched, so every property of
      the reducer's runs holds of the client's. */
  lemma {:induction false} ClientRefinesReducer(v: View, inputs: seq<Input>)
    ensures HandleAll(v, inputs).state == ReduceAll(v.state, Trace(v, inputs))
  {
    if inputs != [] {
      hide Reduce, Handle, ActionsOf, ReduceAll;
      var before, last := inputs[..|inputs| - 1], inputs[|inputs| - 1];
      ClientRefinesReducer(v, before);
      InputRefines(HandleAll(v, before), last);
      ReduceConcat(v.state, Trace(v, before), ActionsOf(HandleAll(v, before), last));
    } else {
      assert ReduceAll(v.state, []) == v.state;
    }
  }

  // What the client shows.

  /** The client was disconnected, and not connected since. */
  lemma {:induction false} DisposedMeaning(inputs: seq<Input>)
    ensures HandleAll(FRESH, inputs).disposed <==>
            exists k :: 0 <= k < |inputs| && inputs[k].Disconnect?
                        && forall j :: k < j < |inputs| ==> !inputs[j].Connect?
  {
    if inputs != [] {
      var before, last := inputs[..|inputs| - 1], inputs[|inputs| - 1];
      assert inputs == before + [last];
      DisposedMeaning(before);
      assert forall k :: 0 <= k < |before| ==> before[k] == inputs[k];
      if HandleAll(FRESH, before).disposed && !last.Connect? {
        var k :| 0 <= k < |before| && before[k].Disconnect? && forall j :: k < j < |before| ==> !before[j].Connect?;
        assert inputs[k].Disconnect?;
      }
    }
  }

  /** What an input says about the display in view `v`: a terminal frame, a snapshot with a terminal status that
      is not too late, or an accepted event with one. */
  predicate Says(v: View, input: Input, d: Display) {
    match input
    case Message(Terminal(shown)) => shown == d
    case Message(Projection(e)) => Accepts(v.state, OnEvent(e)) && Names(e.status, d)
    case SnapshotArrived(status, _) => !v.disposed && Names(Some(status), d)
    case _ => false
  }

  predicate Silent(v: View, input: Input) {
    !Says(v, input, ShowSuccess) && !Says(v, input, ShowFailed) && !Says(v, input, ShowCancelled)
  }

  /** The last input that says anything says `d`. */
  ghost predicate LastSaid(v: View, inputs: seq<Input>, d: Display) {
    if inputs == [] then v.state.display == Some(d)
    else
      var before, last := inputs[..|inputs| - 1], inputs[|inputs| - 1];
      var w := HandleAll(v, before);
      if Silent(w, last) then LastSaid(v, before, d) else Says(w, last, d)
  }

  lemma {:induction false} InputShows(v: View, input: Input, d: Display)
    ensures Handle(v, input).state.display == Some(d) <==>
            if Silent(v, input) then v.state.display == Some(d) else Says(v, input, d)
  {
  }

  /** Over every run the client shows what was said last, through events, terminal frames and snapshots. */
  lemma {:induction false} ClientShows(v: View, inputs: seq<Input>, d: Display)
    ensures HandleAll(v, inputs).state.display == Some(d) <==> LastSaid(v, inputs, d)
  {
    if inputs != [] {
      hide Handle, Says, Silent;
      ClientShows(v, inputs[..|inputs| - 1], d);
      InputShows(HandleAll(v, inputs[..|inputs| - 1]), inputs[|inputs| - 1], d);
    }
  }

  /** A snapshot raises state and cursor to its sequence, shows a terminal status, and comes too late for a
      disposed client. */
  lemma {:induction false} SnapshotMeaning(v: View, status: Status, n: int)
    ensures var w := Handle(v, SnapshotArrived(status, n));
            if v.disposed then w == v
            else
              && n <= w.state.lastSequence && v.state.lastSequence <= w.state.lastSequence
              && (w.state.lastSequence == n || w.state.lastSequence == v.state.lastSequence)
              && !w.state.needsSnapshot && !w.disposed
              && (status == Completed ==> w.state.display == Some(ShowSuccess))
              && (status == Failed ==> w.state.display == Some(ShowFailed))
              && (status == Cancelled ==> w.state.display == Some(ShowCancelled))
              && (SaysNothing(Some(status)) ==> w.state.display == v.state.display)
  {
  }

  // One response, from the server's events to the client's state.

  function Messages(frames: seq<Decoded>): seq<Input> {
    seq(|frames|, i requires 0 <= i < |frames| => Message(frames[i]))
  }

  predicate Ends(e: TaskEvent) {
    e.status.Some? && IsTerminal(e.status.value)
  }

  /** Numbered on from `c`, and only the last may report a terminal status. */
  predicate Continues(events: seq<TaskEvent>, c: int) {
    && (forall k :: 0 <= k < |events| ==> events[k].sequence == c + 1 + k)
    && (forall k :: 0 <= k < |events| - 1 ==> !Ends(events[k]))
  }

  /** The frames of the events, and others that say nothing about the task after them. */
  predicate Feeds(inputs: seq<Input>, events: seq<TaskEvent>) {
    && |events| <= |inputs|
    && (forall k :: 0 <= k < |events| ==> inputs[k] == Message(Projection(events[k])))
    && (forall k :: |events| <= k < |inputs| ==>
          inputs[k].Message? && !inputs[k].frame.Projection? && !inputs[k].frame.Terminal?)
  }

  /** The client has accepted exactly these events, and its cursor stands at the last of them. */
  predicate Resumed(v: View, inputs: seq<Input>, events: seq<TaskEvent>) {
    var w, accepted := HandleAll(v, inputs), Accepted(v.state, Trace(v, inputs));
    && |accepted| == |events| && (forall k :: 0 <= k < |accepted| ==> accepted[k] == events[k].sequence)
    && w.state.lastSequence == v.state.lastSequence + |events|
    && w.cursor == (if events == [] then v.cursor else At(w.state.lastSequence))
  }

  /** The client shows what the last event reported, if that was terminal. */
  ghost predicate Shown(w: View, events: seq<TaskEvent>) {
    if events == [] then w.state.display.None?
    else forall d :: w.state.display == Some(d) <==> Names(events[|events| - 1].status, d)
  }

  lemma {:induction false} QuietStep(w: View, input: Input)
    requires input.Message? && !input.frame.Projection? && !input.frame.Terminal?
    ensures Handle(w, input) == w && ActionsOf(w, input) == []
  {
  }

  lemma {:induction false} NextEvent(w: View, e: TaskEvent)
    requires w.state.display.None? && e.sequence == w.state.lastSequence + 1
    ensures var next := Handle(w, Message(Projection(e)));
            && next.state.lastSequence == e.sequence && next.cursor == At(e.sequence)
            && (next.state.display.None? <==> !Ends(e))
            && (forall d :: next.state.display == Some(d) <==> Names(e.status, d))
    ensures ActionsOf(w, Message(Projection(e))) == [OnEvent(e)] && Accepts(w.state, OnEvent(e))
  {
  }

  lemma {:induction false} AcceptedSnoc(s: StreamState, actions: seq<Action>, a: Action)
    ensures Accepted(s, actions + [a])
            == Accepted(s, actions) + (if Accepts(ReduceAll(s, actions), a) then [a.event.sequence] else [])
  {
    assert (actions + [a])[..|actions|] == actions;
  }

  lemma {:induction false} ResumesOne(v: View, before: seq<Input>, done: seq<TaskEvent>, e: TaskEvent)
    requires Resumed(v, before, done) && HandleAll(v, before).state.display.None?
    requires e.sequence == v.state.lastSequence + |done| + 1
    ensures var inputs := before + [Message(Projection(e))];
            && Resumed(v, inputs, done + [e]) && Shown(HandleAll(v, inputs), done + [e])
            && (HandleAll(v, inputs).state.display.None? <==> !Ends(e))
  {
    var inputs := before + [Message(Projection(e))];
    assert inputs[..|inputs| - 1] == before;
    hide Handle, ActionsOf, Accepts, Ends, Accepted, ReduceAll, Names;
    NextEvent(HandleAll(v, before), e);
    ClientRefinesReducer(v, before);
    AcceptedSnoc(v.state, Trace(v, before), OnEvent(e));
  }

  lemma {:induction false} ResumesQuiet(v: View, before: seq<Input>, events: seq<TaskEvent>, input: Input)
    requires Resumed(v, before, events) && input.Message? && !input.frame.Projection? && !input.frame.Terminal?
    ensures Resumed(v, before + [input], events) && HandleAll(v, before + [input]) == HandleAll(v, before)
  {
    var inputs := before + [input];
    assert inputs[..|inputs| - 1] == before;
    hide Handle, ActionsOf, Accepted;
    QuietStep(HandleAll(v, before), input);
    assert Trace(v, before) + [] == Trace(v, before);
  }

  lemma {:induction false} Resumes(v: View, inputs: seq<Input>, events: seq<TaskEvent>)
    requires v.state.display.None? && Continues(events, v.state.lastSequence) && Feeds(inputs, events)
    ensures Resumed(v, inputs, events) && Shown(HandleAll(v, inputs), events)
    ensures events == [] || !Ends(events[|events| - 1]) ==> HandleAll(v, inputs).state.display.None?
  {
    if inputs != [] {
      var before, last := inputs[..|inputs| - 1], inputs[|inputs| - 1];
      assert inputs == before + [last];
      if |inputs| > |events| {
        hide Handle, ActionsOf, Accepted, Ends, Resumed, Shown;
        Resumes(v, before, events);
        ResumesQuiet(v, before, events, last);
      } else {
        hide Handle, ActionsOf, Accepted, Ends, Resumed, Shown;
        var done, e := events[..|events| - 1], events[|events| - 1];
        assert events == done + [e];
        Resumes(v, before, done);
        ResumesOne(v, before, done, e);
      }
    }
  }

  function EventsOf(events: seq<ServerEvent>, js: Js): seq<TaskEvent>
    requires forall k :: 0 <= k < |events| ==> Readable(events[k], js)
  {
    seq(|events|, k requires 0 <= k < |events| =>
      (assert Readable(events[k], js);
       TaskEvent(events[k].sequence, events[k].eventType, js.payload(events[k].json).value)))
  }

  lemma {:induction false} MeantAt(events: seq<ServerEvent>, js: Js)
    requires forall k :: 0 <= k < |events| ==> Readable(events[k], js)
    ensures |MeantEvents(events, js)| == |events|
    ensures forall k :: 0 <= k < |events| ==> MeantEvents(events, js)[k] == Projection(EventsOf(events, js)[k])
  {
    if events != [] {
      hide Readable;
      MeantAt(events[1..], js);
      assert forall k :: 0 <= k < |events[1..]| ==> EventsOf(events[1..], js)[k] == EventsOf(events, js)[k + 1];
    }
  }

  lemma {:induction false} MeantFeeds(r: Reconnect, js: Js)
    requires Meaningful(r, js) && r.terminal.None?
    ensures Feeds(Messages(Meant(r, js)), EventsOf(r.events, js))
  {
    hide Readable, MeantEvents, Decimal;
    MeantAt(r.events, js);
  }

  /** End to end: a client at sequence `c` that is sent the events `c + 1` to `m`, however the response is
      cut, accepts exactly these, each once and in order, and ends at `m`, ready to reconnect from there,
      showing the status of the last event if that is terminal. */
  lemma {:induction false} ResponseResumes(v: View, r: Reconnect, chunks: seq<string>, js: Js)
    requires CleanReconnect(r) && Meaningful(r, js) && Flatten(chunks) == PrintAll(ServerFrames(r))
    requires v.state.display.None? && r.terminal.None? && Continues(EventsOf(r.events, js), v.state.lastSequence)
    ensures var inputs := Messages(DecodeFrames(SseDecoder.DecodeChunks("", chunks, js.number), js));
            Resumed(v, inputs, EventsOf(r.events, js)) && Shown(HandleAll(v, inputs), EventsOf(r.events, js))
  {
    hide Readable, MeantEvents, Decimal, Feeds, Resumed, Shown, Messages, EventsOf;
    ClientSeesServer(r, chunks, js);
    MeantFeeds(r, js);
    Resumes(v, Messages(Meant(r, js)), EventsOf(r.events, js));
  }
}
