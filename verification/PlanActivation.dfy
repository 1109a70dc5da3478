/** Activating a plan version: what a write set must look like, whether it is committed, and how. */
module PlanActivation {
  import opened Seqs
  import opened TaskModel
  import opened TaskStatus
  import opened GoalCompletion

  datatype Completion = Completion(
    attempt: nat, rowVersion: int, kind: string, schema: string, digest: string, endedAt: int)

  datatype PlanWrites = PlanWrites(
    plan: Plan, completion: Option<Completion>, attempt: Option<Attempt>, goal: Option<Goal>,
    items: seq<Child>, others: seq<Child>, runtime: seq<Child>, events: seq<Event>, messages: seq<Message>)

  predicate LowerHex64(s: string) {
    |s| == 64 && forall i :: 0 <= i < |s| ==> '0' <= s[i] <= '9' || 'a' <= s[i] <= 'f'
  }

  function CompletionContract(c: Completion): Option<string> {
    if c.rowVersion < 1 then Some("PLAN_ATTEMPT_ROW_VERSION_INVALID")
    else if c.kind != "SUCCEEDED" then Some("PLAN_ATTEMPT_RESULT_KIND_INVALID")
    else if c.schema != "attempt_completed_v1" then Some("PLAN_ATTEMPT_RESULT_SCHEMA_INVALID")
    else if !LowerHex64(c.digest) then Some("PLAN_ATTEMPT_RESULT_DIGEST_INVALID")
    else None
  }

  predicate Belongs(cs: seq<Child>, p: Plan) {
    forall i :: 0 <= i < |cs| ==> cs[i].task == p.task && cs[i].version == p.version
  }

  predicate HasItem(cs: seq<Child>, item: nat) {
    exists i :: 0 <= i < |cs| && cs[i].item == item
  }

  predicate DistinctItems(cs: seq<Child>) {
    forall i, j :: 0 <= i < j < |cs| ==> cs[i].item != cs[j].item
  }

  predicate Covers(a: seq<Child>, b: seq<Child>) {
    forall i :: 0 <= i < |a| ==> HasItem(b, a[i].item)
  }

  function ChildrenContract(w: PlanWrites): Option<string> {
    if !Belongs(w.items, w.plan) || !Belongs(w.others, w.plan)
      || !Belongs(w.runtime, w.plan) then Some("PLAN_CHILD_TASK_OR_VERSION_MISMATCH")
    else if !DistinctItems(w.items) then Some("PLAN_ITEM_ID_DUPLICATE")
    else if !Covers(w.items, w.runtime) || !Covers(w.runtime, w.items) then Some("PLAN_RUNTIME_ITEM_COVERAGE_MISMATCH")
    else if !DistinctItems(w.runtime) then Some("PLAN_RUNTIME_ITEM_DUPLICATE")
    else None
  }

  function SourceContract(w: PlanWrites): Option<string> {
    if w.attempt.Some? && w.attempt.value.id != w.plan.attempt then Some("PLAN_ATTEMPT_ID_MISMATCH")
    else if w.attempt.Some? && w.attempt.value.task != w.plan.task then Some("PLAN_ATTEMPT_TASK_MISMATCH")
    else if w.attempt.Some? && w.attempt.value.input != w.plan.input then Some("PLAN_ATTEMPT_INPUT_MISMATCH")
    else if w.attempt.Some? && w.attempt.value.agent != w.plan.agent then Some("PLAN_ATTEMPT_AGENT_MISMATCH")
    else if w.goal.Some? && w.goal.value.id != w.plan.goal then Some("PLAN_GOAL_ID_MISMATCH")
    else if w.goal.Some? && w.goal.value.task != w.plan.task then Some("PLAN_GOAL_TASK_MISMATCH")
    else if w.goal.Some? && w.goal.value.input != w.plan.input then Some("PLAN_GOAL_INPUT_MISMATCH")
    else None
  }

  function PlanNoticeContract(w: PlanWrites): Option<string> {
    if !DistinctIds(w.events) then Some("PLAN_EVENT_ID_DUPLICATE")
    else if exists i :: 0 <= i < |w.events| && w.events[i].task != w.plan.task then Some("PLAN_EVENT_TASK_MISMATCH")
    else if exists i :: 0 <= i < |w.messages| && !HasEvent(w.events, w.messages[i].event)
      then Some("PLAN_OUTBOX_EVENT_UNKNOWN")
    else if !DistinctTargets(w.messages) then Some("PLAN_OUTBOX_DUPLICATE")
    else None
  }

  function VersionContract(w: PlanWrites): Option<string> {
    if w.plan.status != "ACTIVE" then Some("PLAN_ACTIVATION_STATUS_NOT_ACTIVE")
    else if w.plan.activatedAt.None? || w.plan.completedAt.Some? then Some("PLAN_ACTIVATION_TIME_SHAPE_INVALID")
    else if w.plan.predecessor.Some? && w.plan.predecessor.value >= w.plan.version then Some("PLAN_PREDECESSOR_INVALID")
    else
      match w.completion
      case None => None
      case Some(c) =>
        var bad := CompletionContract(c);
        if bad.Some? then bad
        else if c.attempt != w.plan.attempt then Some("PLAN_ATTEMPT_COMPLETION_ID_MISMATCH")
        else None
  }

  /** `PlanActivationWriteSet.validate_relations`, and the required completion. */
  function PlanContract(w: PlanWrites): Option<string> {
    var v := VersionContract(w);
    if v.Some? then v
    else
      var c := ChildrenContract(w);
      if c.Some? then c
      else
        var s := SourceContract(w);
        if s.Some? then s
        else
          var n := PlanNoticeContract(w);
          if n.Some? then n else if w.completion.None? then Some("PLAN_ATTEMPT_COMPLETION_REQUIRED") else None
  }

  predicate SamePlan(a: Plan, b: Plan) {
    a.attempt == b.attempt && a.digest == b.digest && a.input == b.input && a.goal == b.goal && a.status == "ACTIVE"
  }

  predicate CompletedAs(a: Option<Attempt>, c: Completion) {
    && a.Some? && a.value.status == "COMPLETED" && a.value.resultKind == Some(c.kind)
    && a.value.resultSchema == Some(c.schema) && a.value.resultDigest == Some(c.digest)
       && a.value.endedAt == Some(c.endedAt)
  }

  /** The write set's predecessor is not the active plan: a replay of what is active, or a conflict. */
  function PlanReplay(db: Db, w: PlanWrites): (r: Decision)
    requires w.plan.task in db.tasks && w.completion.Some?
    ensures !r.Commit?
  {
    var existing := FindPlan(db.plans, w.plan.task, w.plan.version);
    if db.tasks[w.plan.task].activePlan == Some(w.plan.version) && existing.Some? && SamePlan(existing.value, w.plan)
    then
      if CompletedAs(AttemptOf(db.attempts, w.plan.attempt), w.completion.value) then AlreadyDone
      else Refuse(Conflict("PLAN_ATTEMPT_TERMINAL_STATE_CONFLICT"))
    else Refuse(Conflict("PLAN_ACTIVATION_PREDECESSOR_CONFLICT"))
  }

  predicate GoalReady(g: Option<Goal>, task: nat, input: nat) {
    g.Some? && g.value.task == task && g.value.input == input && g.value.outcome == "READY_TO_PLAN"
  }

  predicate GoalAttemptDone(a: Option<Attempt>, task: nat, input: nat) {
    a.Some? && a.value.task == task && a.value.input == input && a.value.kind == "GOAL_UNDERSTANDING"
      && a.value.status == "COMPLETED"
  }

  predicate PlanAttemptRunning(a: Option<Attempt>, task: nat, input: nat, agent: nat, rowVersion: int) {
    && a.Some? && a.value.task == task && a.value.input == input && a.value.kind == "PLAN"
       && a.value.planVersion == Some(1)
    && a.value.agent == agent && a.value.status == "RUNNING" && a.value.rowVersion == rowVersion
  }

  function PlanGoal(db: Db, w: PlanWrites): Option<Goal> {
    if w.goal.Some? then w.goal else GoalById(db.goals, w.plan.goal)
  }

  function PlanAttempt(db: Db, w: PlanWrites): Option<Attempt> {
    if w.attempt.Some? then w.attempt else AttemptOf(db.attempts, w.plan.attempt)
  }

  /** The fences that are read under the task's row lock, for a first activation. */
  function PlanFence(db: Db, w: PlanWrites): Option<Error>
    requires w.plan.task in db.tasks && w.completion.Some?
  {
    var t, p, c := db.tasks[w.plan.task], w.plan, w.completion.value;
    var goal, attempt := PlanGoal(db, w), PlanAttempt(db, w);
    if p.predecessor.Some? || p.version != 1 then Some(ContractViolated("PLAN_REPLAN_ACTIVATION_NOT_IMPLEMENTED"))
    else if p.reason != "NEW_TASK" then Some(ContractViolated("PLAN_INITIAL_REVISION_REASON_INVALID"))
    else if t.status != Planning then Some(Conflict("PLAN_ACTIVATION_TASK_STATUS_CONFLICT"))
    else if t.input != p.input then Some(Conflict("PLAN_ACTIVATION_INPUT_CONFLICT"))
    else if !GoalReady(goal, p.task, t.input) then Some(Conflict("PLAN_ACTIVATION_GOAL_CONFLICT"))
    else if !GoalAttemptDone(AttemptOf(db.attempts, goal.value.attempt), p.task, t.input)
      then Some(Conflict("PLAN_ACTIVATION_GOAL_ATTEMPT_CONFLICT"))
    else if !PlanAttemptRunning(attempt, p.task, t.input, p.agent, c.rowVersion)
      then Some(Conflict("PLAN_ACTIVATION_ATTEMPT_CONFLICT"))
    else if (attempt.value.createdAt.Some? && c.endedAt < attempt.value.createdAt.value)
            || (attempt.value.startedAt.Some? && c.endedAt < attempt.value.startedAt.value)
    then Some(Conflict("PLAN_ATTEMPT_COMPLETION_TIME_CONFLICT"))
    else if !HasKind(w.events, "PLAN_ACTIVATED") then Some(ContractViolated("PLAN_ACTIVATION_EVENT_REQUIRED"))
    else if w.messages == [] then Some(ContractViolated("PLAN_ACTIVATION_OUTBOX_REQUIRED"))
    else None
  }

  function PlanEvents(db: Db, w: PlanWrites): seq<Event>
    requires w.plan.task in db.tasks
  {
    VersionedAll(Numbered(w.events, db.tasks[w.plan.task].lastSequence + 1))
  }

  /** The sequence of the first event with the message's id. */
  function SequenceOf(es: seq<Event>, id: nat, default: int): int {
    if es == [] then default else if es[0].id == id then es[0].sequence else SequenceOf(es[1..], id, default)
  }

  function Stamped(m: Message, es: seq<Event>): Message {
    m.(version := SequenceOf(es, m.event, m.version))
  }

  function StampedAll(ms: seq<Message>, es: seq<Event>): (r: seq<Message>)
    ensures |r| == |ms| && forall i :: 0 <= i < |r| ==> r[i] == Stamped(ms[i], es)
  {
    seq(|ms|, i requires 0 <= i < |ms| => Stamped(ms[i], es))
  }

  function GivenGoal(w: PlanWrites): seq<Goal> {
    if w.goal.Some? then [w.goal.value] else []
  }

  predicate PlanInsertable(db: Db, w: PlanWrites)
    requires w.plan.task in db.tasks
  {
    && (w.attempt.Some? ==> AttemptInsertable(db.attempts, w.attempt.value))
    && GoalTable(db.goals + GivenGoal(w))
    && PlanTable(db.plans + [w.plan])
    && EventTable(db.events + PlanEvents(db, w))
    && MessageTable(db.messages + StampedAll(w.messages, PlanEvents(db, w)), db.events + PlanEvents(db, w))
  }

  function PlanDecision(db: Db, w: PlanWrites, now: int): Decision {
    if PlanContract(w).Some? then Refuse(ContractViolated(PlanContract(w).value))
    else if w.plan.task !in db.tasks then Refuse(TaskNotFound)
    else if db.tasks[w.plan.task].activePlan != w.plan.predecessor then PlanReplay(db, w)
    else if PlanFence(db, w).Some? then Refuse(PlanFence(db, w).value)
    else if !PlanInsertable(db, w) then Refuse(IntegrityViolated)
    else if db.tasks[w.plan.task].deadline <= now then Refuse(Conflict("PLAN_ACTIVATION_CAS_CONFLICT"))
    else Commit
  }

  function Complete(a: Attempt, c: Completion): Attempt {
    a.(status := "COMPLETED", resultKind := Some(c.kind), resultSchema := Some(c.schema),
       resultDigest := Some(c.digest), endedAt := Some(c.endedAt), rowVersion := a.rowVersion + 1)
  }

  function PlanCommit(db: Db, w: PlanWrites): Db
    requires w.plan.task in db.tasks && w.completion.Some? && PlanAttempt(db, w).Some?
  {
    var t := db.tasks[w.plan.task];
    db.(attempts := db.attempts[w.plan.attempt := Complete(PlanAttempt(db, w).value, w.completion.value)],
        goals := db.goals + GivenGoal(w),
        plans := db.plans + [w.plan],
        definitions := db.definitions + w.items + w.others,
        runtime := db.runtime + w.runtime,
        events := db.events + PlanEvents(db, w),
        messages := db.messages + StampedAll(w.messages, PlanEvents(db, w)),
        tasks := db.tasks[w.plan.task := t.(
                   status := Running, activePlan := Some(w.plan.version), lastSequence := t.lastSequence + |w.events|)])
  }
}
