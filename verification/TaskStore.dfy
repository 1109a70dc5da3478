/** The transactions on the task tables. Each works on its session's copy of the tables, flush by flush,
    and either commits all of it or returns without a trace. */
module TaskStore {
  import opened Seqs
  import opened TaskModel
  import opened TaskStatus
  import opened GoalCompletion
  import opened PlanActivation
  import opened TaskLifecycle

  datatype Outcome = Committed | Unchanged

  /** What a decision makes of the tables' next value. */
  function OutcomeOf(d: Decision): Result<Outcome, Error> {
    match d
    case Commit => Ok(Committed)
    case AlreadyDone => Ok(Unchanged)
    case Refuse(e) => Err(e)
  }

  /** The loop that hands out sequences from `start`. */
  method AssignSequences(events: seq<Event>, start: nat) returns (r: seq<Event>)
    ensures r == Numbered(events, start)
  {
    r := [];
    var next := start;
    for i := 0 to |events|
      invariant next == start + i && |r| == i
      invariant forall k :: 0 <= k < i ==> r[k] == events[k].(sequence := start + k)
    {
      r := r + [events[i].(sequence := next)];
      next := next + 1;
    }
  }

  /** The loop that hands out sequences and back-fills the business version of the task's own events. */
  method AssignVersions(events: seq<Event>, start: nat) returns (r: seq<Event>)
    ensures r == VersionedAll(Numbered(events, start))
  {
    r := [];
    var next := start;
    for i := 0 to |events|
      invariant next == start + i && |r| == i
      invariant forall k :: 0 <= k < i ==> r[k] == Versioned(events[k].(sequence := start + k))
    {
      var event := events[i].(sequence := next);
      if event.refType == Some("TASK") {
        event := event.(businessVersion := Some(event.sequence));
      }
      r := r + [event];
      next := next + 1;
    }
  }

  /** The loop that gives each message the sequence of its event. */
  method StampMessages(messages: seq<Message>, events: seq<Event>) returns (r: seq<Message>)
    ensures r == StampedAll(messages, events)
  {
    r := [];
    for i := 0 to |messages|
      invariant |r| == i && forall k :: 0 <= k < i ==> r[k] == Stamped(messages[k], events)
    {
      var message := messages[i];
      var j := 0;
      while j < |events| && events[j].id != message.event
        invariant 0 <= j <= |events|
        invariant SequenceOf(events, message.event, message.version)
                  == SequenceOf(events[j..], message.event, message.version)
      {
        assert events[j..][1..] == events[j + 1..];
        j := j + 1;
      }
      if j < |events| {
        message := message.(version := events[j].sequence);
      }
      r := r + [message];
    }
  }

  class Store {
    var db: Db

    constructor ()
      ensures db == EMPTY
    {
      db := EMPTY;
    }

    /** `TaskTransactionRepository.add_task_creation`. */
    method AddTaskCreation(w: CreateWrites) returns (r: Result<Outcome, Error>)
      modifies this
      ensures r == OutcomeOf(CreateDecision(old(db), w))
      ensures db == if r == Ok(Committed) then CreateCommit(old(db), w) else old(db)
    {
      var bad := CreateContract(w);
      if bad.Some? {
        return Err(ContractViolated(bad.value));
      }
      var session := db;
      if w.id in session.tasks {
        return Err(IntegrityViolated);
      }
      session := session.(
        tasks := session.tasks[w.id := Task(w.status, None, w.currentInput, 1, w.deadline, w.lastSequence)]);
      var sequence := session.tasks[w.id].lastSequence + 1;
      session := session.(tasks := session.tasks[w.id := session.tasks[w.id].(lastSequence := sequence)]);
      session := session.(events := session.events + [w.event], messages := session.messages + [w.message]);
      if !EventTable(session.events) || !MessageTable(session.messages, session.events) {
        return Err(IntegrityViolated);
      }
      assert session.tasks == db.tasks[w.id := Task(Queued, None, w.currentInput, 1, w.deadline, 1)];
      db := session;
      return Ok(Committed);
    }

    /** `complete_goal_understanding`. */
    method CompleteGoalUnderstanding(w: GoalWrites, now: int) returns (r: Result<Outcome, Error>)
      modifies this
      ensures r == OutcomeOf(GoalDecision(old(db), w, now))
      ensures db == if r == Ok(Committed) then GoalCommit(old(db), w) else old(db)
    {
      hide EventTable, MessageTable, GoalTable, RequestTable, GoalContract, GoalFence, FindGoal, GoalById, Numbered;
      var bad := GoalContract(w);
      if bad.Some? {
        return Err(ContractViolated(bad.value));
      }
      if w.goal.task !in db.tasks {
        return Err(TaskNotFound);
      }
      var task := db.tasks[w.goal.task];
      var existing := FindGoal(db.goals, w.goal.task, w.goal.input, w.goal.attempt);
      if existing.Some? {
        if SameDecision(existing.value, w.goal) {
          return Ok(Unchanged);
        }
        return Err(Conflict("GOAL_COMPLETION_REPLAY_CONFLICT"));
      }
      if GoalById(db.goals, w.goal.id).Some? {
        return Err(Conflict("GOAL_COMPLETION_REPLAY_CONFLICT"));
      }
      var fence := GoalFence(db, w);
      if fence.Some? {
        return Err(Conflict(fence.value));
      }
      var session := db;
      if w.attempt.Some? {
        if !AttemptInsertable(session.attempts, w.attempt.value) {
          return Err(IntegrityViolated);
        }
        session := session.(attempts := session.attempts[w.attempt.value.id := w.attempt.value]);
      }
      session := session.(goals := session.goals + [w.goal]);
      if !GoalTable(session.goals) {
        return Err(IntegrityViolated);
      }
      session := session.(requests := session.requests + Asked(w));
      if !RequestTable(session.requests) {
        return Err(IntegrityViolated);
      }
      var numbered := AssignSequences(w.events, task.lastSequence + 1);
      session := session.(events := session.events + numbered);
      if !EventTable(session.events) {
        return Err(IntegrityViolated);
      }
      session := session.(messages := session.messages + w.messages);
      if !MessageTable(session.messages, session.events) {
        return Err(IntegrityViolated);
      }
      var target := if w.goal.outcome == "REQUEST_USER_INPUT" then WaitingUserInput else Planning;
      if task.deadline <= now {
        return Err(Conflict("GOAL_COMPLETION_CAS_CONFLICT"));
      }
      session := session.(tasks := session.tasks[w.goal.task := task.(
                            status := target, lastSequence := task.lastSequence + |w.events|,
                            version := task.version + 1)]);
      db := session;
      return Ok(Committed);
    }

    /** `activate_plan_version`. */
    method ActivatePlanVersion(w: PlanWrites, now: int) returns (r: Result<Outcome, Error>)
      modifies this
      ensures r == OutcomeOf(PlanDecision(old(db), w, now))
      ensures r == Ok(Committed) ==> w.plan.task in old(db).tasks && w.completion.Some? && PlanAttempt(old(db), w).Some?
      ensures db == if r == Ok(Committed) then PlanCommit(old(db), w) else old(db)
    {
      hide EventTable, MessageTable, GoalTable, PlanTable, PlanContract, PlanReplay, Numbered, VersionedAll, StampedAll,
        PlanGoal;
      var bad := PlanContract(w);
      if bad.Some? {
        return Err(ContractViolated(bad.value));
      }
      CompletionGiven(w);
      if w.plan.task !in db.tasks {
        return Err(TaskNotFound);
      }
      var task := db.tasks[w.plan.task];
      if task.activePlan != w.plan.predecessor {
        return OutcomeOf(PlanReplay(db, w));
      }
      var fence := PlanFence(db, w);
      if fence.Some? {
        return Err(fence.value);
      }
      AttemptGiven(db, w);
      var attempt := PlanAttempt(db, w).value;
      hide PlanFence, PlanAttempt;
      var session := db;
      if w.attempt.Some? {
        if !AttemptInsertable(session.attempts, w.attempt.value) {
          return Err(IntegrityViolated);
        }
        session := session.(attempts := session.attempts[w.attempt.value.id := w.attempt.value]);
      }
      session := session.(goals := session.goals + GivenGoal(w));
      if !GoalTable(session.goals) {
        return Err(IntegrityViolated);
      }
      session := session.(plans := session.plans + [w.plan]);
      if !PlanTable(session.plans) {
        return Err(IntegrityViolated);
      }
      session := session.(definitions := session.definitions + w.items + w.others,
                          runtime := session.runtime + w.runtime);
      var events := AssignVersions(w.events, task.lastSequence + 1);
      var messages := StampMessages(w.messages, events);
      session := session.(events := session.events + events);
      if !EventTable(session.events) {
        return Err(IntegrityViolated);
      }
      session := session.(messages := session.messages + messages);
      if !MessageTable(session.messages, session.events) {
        return Err(IntegrityViolated);
      }
      if task.deadline <= now {
        return Err(Conflict("PLAN_ACTIVATION_CAS_CONFLICT"));
      }
      session := session.(tasks := session.tasks[w.plan.task := task.(
                            status := Running, activePlan := Some(w.plan.version),
                            lastSequence := task.lastSequence + |w.events|)]);
      session := session.(attempts := session.attempts[w.plan.attempt := Complete(attempt, w.completion.value)]);
      assert session.attempts == db.attempts[w.plan.attempt := Complete(attempt, w.completion.value)];
      db := session;
      return Ok(Committed);
    }

    /** `TaskCancellationTransactionService.execute`, with `cas_cancel_request` and `add_task_cancellation`. */
    method Cancel(w: CancelWrites) returns (r: Result<Outcome, Error>)
      modifies this
      ensures r == OutcomeOf(CancelDecision(old(db), w))
      ensures db == if r == Ok(Committed) then CancelCommit(old(db), w) else old(db)
    {
      hide EventTable, MessageTable;
      var bad := CancelContract(w);
      if bad.Some? {
        return Err(ContractViolated(bad.value));
      }
      if w.task !in db.tasks {
        return Err(TaskNotFound);
      }
      var disposition := DecideCancel(db.tasks[w.task].status);
      if disposition == AlreadyCancelled || disposition == AlreadyRequested {
        return Ok(Unchanged);
      }
      if disposition == TerminalTask {
        return Err(Conflict("TASK_CANCEL_TERMINAL"));
      }
      var session := db;
      session := session.(tasks := session.tasks[w.task := session.tasks[w.task].(status := CancelRequested)]);
      var sequence := session.tasks[w.task].lastSequence + 1;
      session := session.(tasks := session.tasks[w.task := session.tasks[w.task].(lastSequence := sequence)]);
      var event := w.event.(sequence := sequence, businessVersion := Some(sequence));
      var message := w.message.(version := sequence);
      session := session.(events := session.events + [event]);
      if !EventTable(session.events) {
        return Err(IntegrityViolated);
      }
      session := session.(messages := session.messages + [message]);
      if !MessageTable(session.messages, session.events) {
        return Err(IntegrityViolated);
      }
      assert session.tasks == db.tasks[
        w.task := db.tasks[w.task].(status := CancelRequested, lastSequence := sequence)];
      db := session;
      return Ok(Committed);
    }
  }

  lemma {:induction false} CompletionGiven(w: PlanWrites)
    requires PlanContract(w).None?
    ensures w.completion.Some? && w.completion.value.attempt == w.plan.attempt
    ensures w.attempt.Some? ==> w.attempt.value.id == w.plan.attempt
  {
    hide CompletionContract, ChildrenContract, PlanNoticeContract;
  }

  lemma {:induction false} AttemptGiven(db: Db, w: PlanWrites)
    requires w.plan.task in db.tasks && w.completion.Some? && PlanFence(db, w).None?
    ensures PlanAttempt(db, w).Some?
  {
  }
}
