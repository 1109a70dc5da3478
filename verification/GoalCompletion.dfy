/** Completing goal understanding: what a write set must look like, whether it is committed, and how. */
module GoalCompletion {
  import opened Seqs
  import opened TaskModel
  import opened TaskStatus

  datatype GoalWrites = GoalWrites(
    goal: Goal, expectedVersion: int, attempt: Option<Attempt>, request: Option<Request>,
    events: seq<Event>, messages: seq<Message>)

  datatype Decision = Refuse(error: Error) | AlreadyDone | Commit

  function AttemptContract(g: Goal, a: Attempt): Option<string> {
    if a.id != g.attempt then Some("GOAL_ATTEMPT_ID_MISMATCH")
    else if a.task != g.task || a.input != g.input then Some("GOAL_ATTEMPT_SCOPE_MISMATCH")
    else if a.kind != "GOAL_UNDERSTANDING" || a.planVersion.Some? then Some("GOAL_ATTEMPT_KIND_INVALID")
    else if a.status != "COMPLETED" then Some("GOAL_ATTEMPT_NOT_COMPLETED")
    else None
  }

  function RequestContract(g: Goal, request: Option<Request>): Option<string> {
    if g.outcome == "READY_TO_PLAN" then (if request.Some? then Some("GOAL_READY_REQUEST_FORBIDDEN") else None)
    else if g.outcome == "REQUEST_USER_INPUT" then
      match request
      case None => Some("GOAL_CLARIFICATION_REQUEST_REQUIRED")
      case Some(r) =>
        if r.task != g.task || r.input != g.input || r.attempt != g.attempt
          || r.goal != Some(g.id) then Some("GOAL_REQUEST_SCOPE_MISMATCH")
        else if r.origin != "GOAL_CLARIFICATION" || r.status != "PENDING" then Some("GOAL_REQUEST_STATE_INVALID")
        else None
    else Some("GOAL_GATE_OUTCOME_INVALID")
  }

  /** The loop over the messages stops at the first one without an event of the write set or for another task. */
  function FirstBadMessage(ms: seq<Message>, es: seq<Event>, task: nat): Option<string> {
    if ms == [] then None
    else if !HasEvent(es, ms[0].event) then Some("GOAL_OUTBOX_EVENT_UNKNOWN")
    else if ms[0].aggregate != task then Some("GOAL_OUTBOX_TASK_MISMATCH")
    else FirstBadMessage(ms[1..], es, task)
  }

  function NoticeContract(w: GoalWrites): Option<string> {
    if !DistinctIds(w.events) then Some("GOAL_EVENT_ID_DUPLICATE")
    else if exists i :: 0 <= i < |w.events| && w.events[i].task != w.goal.task then Some("GOAL_EVENT_TASK_MISMATCH")
    else if !HasKind(w.events, "GOAL_UNDERSTANDING_COMPLETED") then Some("GOAL_COMPLETION_EVENT_REQUIRED")
    else if w.goal.outcome == "REQUEST_USER_INPUT"
      && !HasKind(w.events, "USER_INPUT_REQUESTED") then Some("GOAL_USER_INPUT_EVENT_REQUIRED")
    else if FirstBadMessage(w.messages, w.events, w.goal.task).Some?
      then FirstBadMessage(w.messages, w.events, w.goal.task)
    else if !DistinctTargets(w.messages) then Some("GOAL_OUTBOX_DUPLICATE")
    else if w.messages == [] then Some("GOAL_OUTBOX_REQUIRED")
    else None
  }

  /** `GoalCompletionWriteSet.validate_relations`: the code of the violated relation. */
  function GoalContract(w: GoalWrites): Option<string> {
    if w.expectedVersion < 1 then Some("GOAL_EXPECTED_TASK_VERSION_INVALID")
    else
      var a := if w.attempt.Some? then AttemptContract(w.goal, w.attempt.value) else None;
      if a.Some? then a
      else
        var r := RequestContract(w.goal, w.request);
        if r.Some? then r else NoticeContract(w)
  }

  predicate SameDecision(a: Goal, b: Goal) {
    a.digest == b.digest && a.gateDigest == b.gateDigest && a.outcome == b.outcome
  }

  predicate GoalAttemptReady(g: Goal, a: Option<Attempt>) {
    && a.Some? && a.value.task == g.task && a.value.input == g.input && a.value.kind == "GOAL_UNDERSTANDING"
    && a.value.planVersion.None? && a.value.status == "COMPLETED"
  }

  /** The fences that are read under the task's row lock. */
  function GoalFence(db: Db, w: GoalWrites): Option<string>
    requires w.goal.task in db.tasks
  {
    var t, g := db.tasks[w.goal.task], w.goal;
    if t.status != Planning then Some("GOAL_TASK_STATUS_CONFLICT")
    else if t.input != g.input then Some("GOAL_INPUT_CONFLICT")
    else if t.activePlan.Some? then Some("GOAL_ACTIVE_PLAN_CONFLICT")
    else if t.version != w.expectedVersion then Some("GOAL_TASK_VERSION_CONFLICT")
    else if !GoalAttemptReady(g, if w.attempt.Some? then w.attempt else AttemptOf(db.attempts, g.attempt))
      then Some("GOAL_ATTEMPT_CONFLICT")
    else
      match w.request
      case None => None
      case Some(r) =>
        var asked := |Rounds(db.requests, g.task)|;
        if r.requestedAt >= r.expiresAt || r.expiresAt > t.deadline then Some("GOAL_REQUEST_DEADLINE_CONFLICT")
        else if asked >= 2 || r.round != Some(asked + 1) then Some("GOAL_CLARIFICATION_ROUND_CONFLICT")
        else None
  }

  function GoalEvents(db: Db, w: GoalWrites): seq<Event>
    requires w.goal.task in db.tasks
  {
    Numbered(w.events, db.tasks[w.goal.task].lastSequence + 1)
  }

  function Asked(w: GoalWrites): seq<Request> {
    if w.request.Some? then [w.request.value] else []
  }

  /** The rows pass the constraints of their tables. */
  predicate GoalInsertable(db: Db, w: GoalWrites)
    requires w.goal.task in db.tasks
  {
    && (w.attempt.Some? ==> AttemptInsertable(db.attempts, w.attempt.value))
    && GoalTable(db.goals + [w.goal])
    && RequestTable(db.requests + Asked(w))
    && EventTable(db.events + GoalEvents(db, w))
    && MessageTable(db.messages + w.messages, db.events + GoalEvents(db, w))
  }

  function GoalDecision(db: Db, w: GoalWrites, now: int): Decision {
    if GoalContract(w).Some? then Refuse(ContractViolated(GoalContract(w).value))
    else if w.goal.task !in db.tasks then Refuse(TaskNotFound)
    else
      var found := FindGoal(db.goals, w.goal.task, w.goal.input, w.goal.attempt);
      if found.Some? && SameDecision(found.value, w.goal) then AlreadyDone
      else if found.Some? || GoalById(db.goals, w.goal.id).Some?
        then Refuse(Conflict("GOAL_COMPLETION_REPLAY_CONFLICT"))
      else if GoalFence(db, w).Some? then Refuse(Conflict(GoalFence(db, w).value))
      else if !GoalInsertable(db, w) then Refuse(IntegrityViolated)
      else if db.tasks[w.goal.task].deadline <= now then Refuse(Conflict("GOAL_COMPLETION_CAS_CONFLICT"))
      else Commit
  }

  function GoalCommit(db: Db, w: GoalWrites): Db
    requires w.goal.task in db.tasks
  {
    var t := db.tasks[w.goal.task];
    db.(attempts := if w.attempt.Some? then db.attempts[w.attempt.value.id := w.attempt.value] else db.attempts,
        goals := db.goals + [w.goal],
        requests := db.requests + Asked(w),
        events := db.events + GoalEvents(db, w),
        messages := db.messages + w.messages,
        tasks := db.tasks[w.goal.task := t.(
                   status := if w.goal.outcome == "REQUEST_USER_INPUT" then WaitingUserInput else Planning,
                   lastSequence := t.lastSequence + |w.events|,
                   version := t.version + 1)])
  }
}
