/** Idempotent task creation: a read, an insert and - after a lost race - a second read, each its own
    transaction, so that calls with one key interleave. */
module TaskCreation {
  import opened Seqs

  datatype Key = Key(scope: string, actor: nat, digest: string)

  datatype RowStatus = Processing | Completed

  datatype Row = Row(
    hash: string, status: RowStatus, resource: Option<nat>,
    code: Option<int>, body: Option<string>, digest: Option<string>)

  /** What a call brings: its task and its idempotency row. */
  datatype WriteSet = WriteSet(key: Key, task: nat, row: Row)

  datatype Error = ContractViolated | KeyReused | NotCompleted | WriteConflict | ResponseIncomplete | Aborted

  datatype Disposition = Created | Replayed

  datatype Answer = Answer(disposition: Disposition, task: nat, code: int, body: string, digest: string)

  /** `status_result_shape`. */
  predicate Shape(r: Row) {
    match r.status
    case Processing => r.resource.None? && r.code.None? && r.body.None? && r.digest.None?
    case Completed => r.resource.Some? && r.code.Some? && r.body.Some? && r.digest.Some?
  }

  /** `validate_relations`, as far as it concerns the idempotency row. */
  predicate WellFormed(w: WriteSet) {
    w.row.status == Completed && w.row.resource == Some(w.task)
  }

  function ResultOf(r: Row, d: Disposition): Result<Answer, Error> {
    if r.resource.None? || r.code.None? || r.body.None? || r.digest.None? then Err(ResponseIncomplete)
    else Ok(Answer(d, r.resource.value, r.code.value, r.body.value, r.digest.value))
  }

  function Replay(r: Row, hash: string): Result<Answer, Error> {
    if r.hash != hash then Err(KeyReused)
    else if r.status != Completed then Err(NotCompleted)
    else ResultOf(r, Replayed)
  }

  // The database, and the transactions of one call.

  datatype Db = Db(rows: map<Key, Row>, tasks: set<nat>)

  datatype Phase = Start | Inserting | Rereading | Done(result: Result<Answer, Error>)

  function AfterRead(db: Db, w: WriteSet): Phase {
    if !WellFormed(w) then Done(Err(ContractViolated))
    else if w.key in db.rows then Done(Replay(db.rows[w.key], w.row.hash))
    else Inserting
  }

  /** Does the insert violate a constraint: the key, the task id, the row's shape, or one outside this model? */
  predicate Violates(db: Db, w: WriteSet, other: bool) {
    w.key in db.rows || w.task in db.tasks || !Shape(w.row) || other
  }

  function AfterInsert(db: Db, w: WriteSet, other: bool): (Db, Phase) {
    if Violates(db, w, other) then (db, Rereading)
    else (Db(db.rows[w.key := w.row], db.tasks + {w.task}), Done(ResultOf(w.row, Created)))
  }

  function AfterReread(db: Db, w: WriteSet): Phase {
    if w.key in db.rows then Done(Replay(db.rows[w.key], w.row.hash)) else Done(Err(WriteConflict))
  }

  /** `TaskCreationTransactionService`, one method per transaction of `execute`. */
  class CreationService {
    var rows: map<Key, Row>
    var tasks: set<nat>

    ghost function State(): Db
      reads this
    {
      Db(rows, tasks)
    }

    constructor ()
      ensures State() == Db(map[], {})
    {
      rows, tasks := map[], {};
    }

    method FindIdempotency(key: Key) returns (found: Option<Row>)
      ensures State() == old(State())
      ensures found == if key in State().rows then Some(State().rows[key]) else None
    {
      if key in rows {
        found := Some(rows[key]);
      } else {
        found := None;
      }
    }

    method FirstRead(w: WriteSet) returns (phase: Phase)
      ensures State() == old(State()) && phase == AfterRead(State(), w)
    {
      if w.row.status != Completed || w.row.resource != Some(w.task) {
        return Done(Err(ContractViolated));
      }
      var existing := FindIdempotency(w.key);
      if existing.Some? {
        return Done(Replay(existing.value, w.row.hash));
      }
      return Inserting;
    }

    method Insert(w: WriteSet, other: bool) returns (phase: Phase)
      modifies this
      ensures (State(), phase) == AfterInsert(old(State()), w, other)
    {
      if w.task in tasks || w.key in rows || !Shape(w.row) || other {
        return Rereading;
      }
      tasks := tasks + {w.task};
      rows := rows[w.key := w.row];
      phase := Done(ResultOf(w.row, Created));
    }

    method SecondRead(w: WriteSet) returns (phase: Phase)
      ensures State() == old(State()) && phase == AfterReread(State(), w)
    {
      var concurrent := FindIdempotency(w.key);
      if concurrent.None? {
        return Done(Err(WriteConflict));
      }
      return Done(Replay(concurrent.value, w.row.hash));
    }
  }

  // Interleavings.

  datatype Call = Call(write: WriteSet, phase: Phase)

  /** `committed` lists the calls that committed, in order. */
  datatype World = World(db: Db, calls: seq<Call>, committed: seq<nat>)

  /** Call `i` takes its next transaction, or dies; a call may also die after its commit. */
  datatype Step = Advance(i: nat, other: bool, answerLost: bool) | Die(i: nat)

  function AdvanceCall(w: World, i: nat, other: bool, answerLost: bool): World
    requires i < |w.calls|
  {
    var c := w.calls[i];
    match c.phase
    case Start => w.(calls := w.calls[i := c.(phase := AfterRead(w.db, c.write))])
    case Inserting =>
      if Violates(w.db, c.write, other) then w.(calls := w.calls[i := c.(phase := Rereading)])
      else
        var (db, phase) := AfterInsert(w.db, c.write, other);
        World(db, w.calls[i := c.(phase := if answerLost then Done(Err(Aborted)) else phase)], w.committed + [i])
    case Rereading => w.(calls := w.calls[i := c.(phase := AfterReread(w.db, c.write))])
    case Done(_) => w
  }

  function DieCall(w: World, i: nat): World
    requires i < |w.calls|
  {
    if w.calls[i].phase.Done? then w else w.(calls := w.calls[i := w.calls[i].(phase := Done(Err(Aborted)))])
  }

  function Next(w: World, s: Step): World {
    if s.i >= |w.calls| then w
    else
      match s
      case Advance(i, other, lost) => AdvanceCall(w, i, other, lost)
      case Die(i) => DieCall(w, i)
  }

  function Run(w: World, steps: seq<Step>): World {
    if steps == [] then w else Next(Run(w, steps[..|steps| - 1]), steps[|steps| - 1])
  }

  ghost predicate ShapedRows(db: Db) {
    forall k :: k in db.rows ==> Shape(db.rows[k])
  }

  /** Before the run: any rows that pass the constraints, and calls that have not begun. */
  ghost predicate Initial(w: World) {
    ShapedRows(w.db) && w.committed == [] && forall i :: 0 <= i < |w.calls| ==> w.calls[i].phase == Start
  }

  /** A successful answer is the stored row's answer to the stored request. */
  ghost predicate Honest(db: Db, c: Call) {
    c.phase.Done? && c.phase.result.Ok? ==>
      c.write.key in db.rows
      && var row, a := db.rows[c.write.key], c.phase.result.value;
         row.hash == c.write.row.hash && row.status == Completed
         && row.resource == Some(a.task) && row.code == Some(a.code) && row.body == Some(a.body)
            && row.digest == Some(a.digest)
  }

  /** The calls that committed have distinct keys, not stored before, and their rows and tasks are stored. */
  ghost predicate Ledger(w: World, first: World) {
    && (forall m :: 0 <= m < |w.committed| ==> w.committed[m] < |w.calls|)
    && (forall m :: 0 <= m < |w.committed| ==>
          var c := w.calls[w.committed[m]].write;
          c.key !in first.db.rows && c.key in w.db.rows && w.db.rows[c.key] == c.row && WellFormed(c)
            && c.task in w.db.tasks)
    && (forall m, n :: 0 <= m < n < |w.committed| ==>
        w.calls[w.committed[m]].write.key != w.calls[w.committed[n]].write.key)
  }

  ghost predicate Kept(w: World, first: World) {
    && |w.calls| == |first.calls|
    && (forall i :: 0 <= i < |w.calls| ==> w.calls[i].write == first.calls[i].write)
    && (forall k :: k in first.db.rows ==> k in w.db.rows && w.db.rows[k] == first.db.rows[k])
  }

  ghost predicate Inv(w: World, first: World) {
    && ShapedRows(w.db) && Kept(w, first) && Ledger(w, first)
    && (forall i :: 0 <= i < |w.calls| ==> Honest(w.db, w.calls[i]))
    && (forall i :: 0 <= i < |w.calls| && w.calls[i].phase.Inserting? ==> WellFormed(w.calls[i].write))
  }

  /** A step that only moves call `i` to an honest phase. */
  lemma {:induction false} PhaseKeeps(w: World, first: World, i: nat, phase: Phase)
    requires Inv(w, first) && i < |w.calls|
    requires Honest(w.db, w.calls[i].(phase := phase)) && (phase.Inserting? ==> WellFormed(w.calls[i].write))
    ensures Inv(w.(calls := w.calls[i := w.calls[i].(phase := phase)]), first)
  {
  }

  lemma {:induction false} CommitKeeps(w: World, first: World, i: nat, lost: bool)
    requires Inv(w, first) && i < |w.calls| && w.calls[i].phase.Inserting? && !Violates(w.db, w.calls[i].write, false)
    ensures Inv(AdvanceCall(w, i, false, lost), first)
  {
    hide Honest, Ledger;
    CommitLedger(w, first, i, lost);
    var after := AdvanceCall(w, i, false, lost);
    forall j | 0 <= j < |after.calls|
      ensures Honest(after.db, after.calls[j])
    {
      CommitHonest(w, i, lost, j);
    }
  }

  lemma {:induction false} CommitHonest(w: World, i: nat, lost: bool, j: nat)
    requires i < |w.calls| && w.calls[i].phase.Inserting? && !Violates(w.db, w.calls[i].write, false)
    requires j < |w.calls| && Honest(w.db, w.calls[j])
    requires WellFormed(w.calls[i].write)
    ensures var after := AdvanceCall(w, i, false, lost);
            Honest(after.db, after.calls[j])
  {
  }

  lemma {:induction false} CommitLedger(w: World, first: World, i: nat, lost: bool)
    requires Ledger(w, first) && Kept(w, first) && i < |w.calls| && w.calls[i].phase.Inserting?
    requires !Violates(w.db, w.calls[i].write, false) && WellFormed(w.calls[i].write)
    ensures Ledger(AdvanceCall(w, i, false, lost), first)
  {
    var after := AdvanceCall(w, i, false, lost);
    assert forall j :: 0 <= j < |w.calls| ==> after.calls[j].write == w.calls[j].write;
  }

  lemma {:induction false} AdvanceKeeps(w: World, first: World, i: nat, other: bool, lost: bool)
    requires Inv(w, first) && i < |w.calls|
    ensures Inv(AdvanceCall(w, i, other, lost), first)
  {
    var c := w.calls[i];
    if c.phase.Inserting? && !Violates(w.db, c.write, other) {
      CommitKeeps(w, first, i, lost);
    } else if !c.phase.Done? {
      hide Ledger, Kept;
      PhaseKeeps(w, first, i, AdvanceCall(w, i, other, lost).calls[i].phase);
    }
  }

  lemma {:induction false} RunKeeps(w: World, steps: seq<Step>)
    requires Initial(w)
    ensures Inv(Run(w, steps), w)
  {
    if steps != [] {
      RunKeeps(w, steps[..|steps| - 1]);
      var before, s := Run(w, steps[..|steps| - 1]), steps[|steps| - 1];
      if s.i < |before.calls| && s.Advance? {
        AdvanceKeeps(before, w, s.i, s.other, s.answerLost);
      }
    }
  }

  // The promises.

  /** For one key at most one call ever commits, and none if the key was stored before. */
  lemma {:induction false} AtMostOneCommit(w: World, steps: seq<Step>, key: Key)
    requires Initial(w)
    ensures var done := Run(w, steps);
            forall m, n :: 0 <= m < |done.committed| && 0 <= n < |done.committed|
              && done.committed[m] < |w.calls| && done.committed[n] < |w.calls|
              && w.calls[done.committed[m]].write.key == key == w.calls[done.committed[n]].write.key
              ==> m == n && key !in w.db.rows
  {
    RunKeeps(w, steps);
  }

  /** All successful calls with one key asked for the same and are told the same. */
  lemma {:induction false} SameAnswer(w: World, steps: seq<Step>, i: nat, j: nat)
    requires Initial(w)
    requires i < |w.calls| && j < |w.calls| && w.calls[i].write.key == w.calls[j].write.key
    ensures var done := Run(w, steps);
            i < |done.calls| && j < |done.calls|
    ensures var a, b := Run(w, steps).calls[i].phase, Run(w, steps).calls[j].phase;
            a.Done? && a.result.Ok? && b.Done? && b.result.Ok? ==>
              && w.calls[i].write.row.hash == w.calls[j].write.row.hash
              && a.result.value.(disposition := Created) == b.result.value.(disposition := Created)
  {
    RunKeeps(w, steps);
    var done := Run(w, steps);
    assert Honest(done.db, done.calls[i]) && Honest(done.db, done.calls[j]);
  }

  /** A call whose request differs from the committed one never succeeds. */
  lemma {:induction false} OtherRequestRefused(w: World, steps: seq<Step>, winner: nat, i: nat)
    requires Initial(w) && i < |w.calls|
    requires var done := Run(w, steps);
             winner in done.committed && winner < |w.calls| && w.calls[winner].write.key == w.calls[i].write.key
    requires w.calls[i].write.row.hash != w.calls[winner].write.row.hash
    ensures var done := Run(w, steps);
            i < |done.calls| && !(done.calls[i].phase.Done? && done.calls[i].phase.result.Ok?)
  {
    RunKeeps(w, steps);
    var done := Run(w, steps);
    var m :| 0 <= m < |done.committed| && done.committed[m] == winner;
    assert Honest(done.db, done.calls[i]);
  }

  /** A call that found the key taken finds its row. */
  ghost predicate LoserFinds(w: World) {
    forall i :: 0 <= i < |w.calls| ==>
      (w.calls[i].phase.Rereading? ==> w.calls[i].write.key in w.db.rows)
      && w.calls[i].phase != Done(Err(WriteConflict))
      && w.calls[i].phase != Done(Err(ResponseIncomplete))
  }

  ghost predicate FreshTasks(w: World) {
    && (forall i :: 0 <= i < |w.calls| ==> Shape(w.calls[i].write.row) && w.calls[i].write.task !in w.db.tasks)
    && (forall i, j :: 0 <= i < |w.calls| && 0 <= j < |w.calls| && w.calls[i].write.task == w.calls[j].write.task
          ==> w.calls[i].write.key == w.calls[j].write.key)
  }

  /** Stored tasks that were not there before were committed with their key. */
  ghost predicate TasksAccounted(w: World, first: World) {
    forall t :: t in w.db.tasks && t !in first.db.tasks ==>
      exists i :: 0 <= i < |w.calls| && w.calls[i].write.task == t && w.calls[i].write.key in w.db.rows
  }

  lemma {:induction false} AdvanceFinds(w: World, first: World, i: nat, lost: bool)
    requires Inv(w, first) && FreshTasks(first) && TasksAccounted(w, first) && LoserFinds(w) && i < |w.calls|
    ensures LoserFinds(AdvanceCall(w, i, false, lost)) && TasksAccounted(AdvanceCall(w, i, false, lost), first)
  {
    var after := AdvanceCall(w, i, false, lost);
    var c := w.calls[i].write;
    assert c == first.calls[i].write;
    forall t | t in after.db.tasks && t !in first.db.tasks
      ensures exists j :: 0 <= j < |after.calls| && after.calls[j].write.task == t
                            && after.calls[j].write.key in after.db.rows
    {
      if t in w.db.tasks {
        var j :| 0 <= j < |w.calls| && w.calls[j].write.task == t && w.calls[j].write.key in w.db.rows;
        assert after.calls[j].write == w.calls[j].write;
      } else {
        assert after.calls[i].write == c;
      }
    }
    NotTaken(w, first, i);
  }

  lemma {:induction false} NotTaken(w: World, first: World, i: nat)
    requires Kept(w, first) && FreshTasks(first) && TasksAccounted(w, first) && i < |w.calls|
    ensures w.calls[i].write.task in w.db.tasks ==> w.calls[i].write.key in w.db.rows
  {
    var c := w.calls[i].write;
    forall j | 0 <= j < |w.calls| && w.calls[j].write.task == c.task
      ensures w.calls[j].write.key == c.key
    {
      assert w.calls[j].write == first.calls[j].write && first.calls[i].write == c;
    }
  }

  /** When task ids are fresh, rows complete and no other constraint fails, losing the race is never an
      error of its own: no call ends in a write conflict. */
  lemma {:induction false} LosersAreAnswered(w: World, steps: seq<Step>)
    requires Initial(w) && FreshTasks(w)
    requires forall m :: 0 <= m < |steps| && steps[m].Advance? ==> !steps[m].other
    ensures LoserFinds(Run(w, steps)) && TasksAccounted(Run(w, steps), w)
  {
    if steps != [] {
      var init, s := steps[..|steps| - 1], steps[|steps| - 1];
      RunKeeps(w, init);
      assert forall m :: 0 <= m < |init| ==> init[m] == steps[m];
      LosersAreAnswered(w, init);
      var before := Run(w, init);
      if s.i < |before.calls| {
        match s
        case Advance(i, other, lost) =>
          AdvanceFinds(before, w, i, lost);
        case Die(i) =>
          DieFinds(before, w, i);
      }
    }
  }

  lemma {:induction false} DieFinds(w: World, first: World, i: nat)
    requires i < |w.calls| && LoserFinds(w) && TasksAccounted(w, first)
    ensures LoserFinds(DieCall(w, i)) && TasksAccounted(DieCall(w, i), first)
  {
    var after := DieCall(w, i);
    forall t | t in after.db.tasks && t !in first.db.tasks
      ensures exists j :: 0 <= j < |after.calls| && after.calls[j].write.task == t
                            && after.calls[j].write.key in after.db.rows
    {
      var j :| 0 <= j < |w.calls| && w.calls[j].write.task == t && w.calls[j].write.key in w.db.rows;
      assert after.calls[j].write == w.calls[j].write;
    }
  }

  // What each call is told.

  /** The write set carries its own finished answer. */
  predicate Carries(w: WriteSet) {
    w.row.status == Completed && w.row.resource == Some(w.task)
  }

  predicate Complete(r: Row) {
    r.status == Completed && r.resource.Some? && r.code.Some? && r.body.Some? && r.digest.Some?
  }

  /** What row `r` tells a request with hash `hash`. */
  predicate Tells(r: Row, hash: string, d: Disposition, result: Result<Answer, Error>) {
    if r.hash != hash then result == Err(KeyReused)
    else if r.status == Processing then result == Err(NotCompleted)
    else
      && result.Ok? && result.value.disposition == d && r.resource == Some(result.value.task)
      && r.code == Some(result.value.code) && r.body == Some(result.value.body) && r.digest == Some(result.value.digest)
  }

  /** A call that nobody disturbs. A stored key is answered from its row by the first read, and nothing is
      written; a new key is written with its task, and answered as created; and when the task id is taken or the
      row is incomplete, nothing is written and the call ends in a conflict. */
  lemma {:induction false} CallAlone(w: World, i: nat)
    requires i < |w.calls| && w.calls[i].phase == Start && ShapedRows(w.db)
    ensures var c := w.calls[i].write;
            var one := Next(w, Advance(i, false, false));
            var all := Next(Next(one, Advance(i, false, false)), Advance(i, false, false));
            && |one.calls| == |all.calls| == |w.calls| && all.calls[i].write == c
            && all.calls[i].phase.Done?
            && (!Carries(c) ==> one.db == w.db && one.calls[i].phase == Done(Err(ContractViolated)))
            && (Carries(c) && c.key in w.db.rows ==>
                  && one.db == all.db == w.db && one.calls[i].phase.Done? && all.committed == w.committed
                  && Tells(w.db.rows[c.key], c.row.hash, Replayed, one.calls[i].phase.result))
            && (Carries(c) && c.key !in w.db.rows && c.task !in w.db.tasks && Complete(c.row) ==>
                  && all.db == Db(w.db.rows[c.key := c.row], w.db.tasks + {c.task})
                     && all.committed == w.committed + [i]
                  && Tells(c.row, c.row.hash, Created, all.calls[i].phase.result))
            && (Carries(c) && c.key !in w.db.rows && (c.task in w.db.tasks || !Complete(c.row)) ==>
                  && all.db == w.db && all.committed == w.committed
                  && all.calls[i].phase == Done(Err(WriteConflict)))
  {
    assert w.calls[i].write.key in w.db.rows ==> Shape(w.db.rows[w.calls[i].write.key]);
  }

  /** The insert writes row and task together, or nothing at all: when the key or the task id is taken, the row is
      incomplete, or any other constraint fails, the call reads again. */
  lemma {:induction false} InsertAllOrNothing(w: World, i: nat, other: bool, lost: bool)
    requires i < |w.calls| && w.calls[i].phase == Inserting && Carries(w.calls[i].write)
    ensures var c, next := w.calls[i].write, Next(w, Advance(i, other, lost));
            if c.key !in w.db.rows && c.task !in w.db.tasks && Complete(c.row) && !other then
              && next.db == Db(w.db.rows[c.key := c.row], w.db.tasks + {c.task})
              && next.committed == w.committed + [i]
            else
              next.db == w.db && next.committed == w.committed && next.calls[i].phase == Rereading
  {
  }

  /** What an error says is so, and stays so: rows never change. */
  ghost predicate Blamed(w: World, c: Call, i: nat) {
    c.phase.Done? ==>
      match c.phase.result
      case Ok(a) => a.disposition == Created <==> i in w.committed
      case Err(ContractViolated) => !Carries(c.write)
      case Err(KeyReused) => c.write.key in w.db.rows && w.db.rows[c.write.key].hash != c.write.row.hash
      case Err(NotCompleted) => c.write.key in w.db.rows && w.db.rows[c.write.key].status == Processing
      case Err(ResponseIncomplete) => false
      case _ => true
  }

  ghost predicate AllBlamed(w: World) {
    && (forall i :: 0 <= i < |w.calls| ==> Blamed(w, w.calls[i], i))
    && (forall i :: 0 <= i < |w.calls| && !w.calls[i].phase.Done? ==> i !in w.committed)
  }

  lemma {:induction false} BlameKept(w: World, i: nat, phase: Phase)
    requires AllBlamed(w) && i < |w.calls| && !w.calls[i].phase.Done?
    requires Blamed(w, w.calls[i].(phase := phase), i)
    ensures AllBlamed(w.(calls := w.calls[i := w.calls[i].(phase := phase)]))
  {
  }

  lemma {:induction false} CommitBlamed(w: World, first: World, i: nat, lost: bool)
    requires Inv(w, first) && AllBlamed(w) && i < |w.calls| && w.calls[i].phase.Inserting?
    requires !Violates(w.db, w.calls[i].write, false)
    ensures AllBlamed(AdvanceCall(w, i, false, lost))
  {
    assert WellFormed(w.calls[i].write);
    hide Inv;
    var after := AdvanceCall(w, i, false, lost);
    assert after.committed == w.committed + [i];
    forall j | 0 <= j < |after.calls|
      ensures Blamed(after, after.calls[j], j)
    {
      assert Blamed(w, w.calls[j], j);
    }
  }

  lemma {:induction false} AdvanceBlamed(w: World, first: World, i: nat, other: bool, lost: bool)
    requires Inv(w, first) && AllBlamed(w) && i < |w.calls|
    ensures AllBlamed(AdvanceCall(w, i, other, lost))
  {
    var c := w.calls[i];
    assert c.write.key in w.db.rows ==> Shape(w.db.rows[c.write.key]);
    if c.phase.Inserting? && !Violates(w.db, c.write, other) {
      CommitBlamed(w, first, i, lost);
    } else if !c.phase.Done? {
      hide AllBlamed, Inv;
      BlameGiven(w, c, i, other, lost);
      BlameKept(w, i, AdvanceCall(w, i, other, lost).calls[i].phase);
    }
  }

  lemma {:induction false} BlameGiven(w: World, c: Call, i: nat, other: bool, lost: bool)
    requires AllBlamed(w) && i < |w.calls| && w.calls[i] == c && !c.phase.Done?
    requires c.write.key in w.db.rows ==> Shape(w.db.rows[c.write.key])
    requires c.phase.Inserting? ==> Violates(w.db, c.write, other)
    ensures Blamed(w, c.(phase := AdvanceCall(w, i, other, lost).calls[i].phase), i)
  {
  }

  /** Over every interleaving: a call is told that it created the task exactly if it committed; and an error
      names what is so: a malformed write set, a stored row of another request, or one still in progress. */
  lemma {:induction false} ErrorsAreTrue(w: World, steps: seq<Step>)
    requires Initial(w)
    ensures AllBlamed(Run(w, steps))
  {
    if steps != [] {
      var before, s := Run(w, steps[..|steps| - 1]), steps[|steps| - 1];
      ErrorsAreTrue(w, steps[..|steps| - 1]);
      RunKeeps(w, steps[..|steps| - 1]);
      if s.i < |before.calls| {
        hide AllBlamed, Inv;
        if s.Advance? {
          AdvanceBlamed(before, w, s.i, s.other, s.answerLost);
        } else if !before.calls[s.i].phase.Done? {
          BlameKept(before, s.i, Done(Err(Aborted)));
        }
      }
    }
  }
}
