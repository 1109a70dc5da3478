/** When each transaction commits, read off the rows, and what it leaves behind: for the next state and for
    every run that follows. */
module TaskEffects {
  import opened Seqs
  import opened TaskModel
  import opened TaskStatus
  import opened GoalCompletion
  import opened PlanActivation
  import opened TaskLifecycle
  import opened TaskRuns
  import TaskStore

  // Goal understanding.

  predicate GoalAttemptOf(a: Attempt, g: Goal) {
    && a.task == g.task && a.input == g.input && a.kind == "GOAL_UNDERSTANDING" && a.planVersion.None?
    && a.status == "COMPLETED"
  }

  /** Ready without a question, or with a pending one about this goal. */
  predicate Outcome(g: Goal, request: Option<Request>) {
    match request
    case None => g.outcome == "READY_TO_PLAN"
    case Some(r) =>
      && g.outcome == "REQUEST_USER_INPUT"
      && r.task == g.task && r.input == g.input && r.attempt == g.attempt && r.goal == Some(g.id)
      && r.origin == "GOAL_CLARIFICATION" && r.status == "PENDING"
  }

  /** Every event is one of task `t`, ids and message targets do not repeat, and every message is about an event. */
  predicate Notices(events: seq<Event>, messages: seq<Message>, t: nat) {
    && (forall i :: 0 <= i < |events| ==> events[i].task == t)
    && (forall i, j :: 0 <= i < j < |events| ==> events[i].id != events[j].id)
    && (forall m :: 0 <= m < |messages| ==> HasEvent(events, messages[m].event))
    && (forall m, n :: 0 <= m < n < |messages| ==>
          messages[m].event != messages[n].event || messages[m].destination != messages[n].destination)
    && messages != []
  }

  predicate GoalWellFormed(w: GoalWrites) {
    && w.expectedVersion >= 1
    && (w.attempt.Some? ==> w.attempt.value.id == w.goal.attempt && GoalAttemptOf(w.attempt.value, w.goal))
    && Outcome(w.goal, w.request)
    && Notices(w.events, w.messages, w.goal.task)
    && (forall m :: 0 <= m < |w.messages| ==> w.messages[m].aggregate == w.goal.task)
    && (exists i :: 0 <= i < |w.events| && w.events[i].kind == "GOAL_UNDERSTANDING_COMPLETED")
    && (w.request.Some? ==> exists i :: 0 <= i < |w.events| && w.events[i].kind == "USER_INPUT_REQUESTED")
  }

  /** The task plans on this very input, has no plan, and stands at the expected version before its deadline;
      the goal is new, its attempt is done, and a question is within the deadline and the next of two. */
  predicate GoalFits(db: Db, w: GoalWrites, now: int) {
    && w.goal.task in db.tasks
    && (var t := db.tasks[w.goal.task];
        && t.status == Planning && t.input == w.goal.input && t.activePlan.None? && t.version == w.expectedVersion
        && now < t.deadline
        && (w.request.Some? ==>
              && w.request.value.requestedAt < w.request.value.expiresAt <= t.deadline
              && w.request.value.round == Some(|Rounds(db.requests, w.goal.task)| + 1)
              && |Rounds(db.requests, w.goal.task)| <= 1))
    && (forall g :: g in db.goals ==> g.id != w.goal.id && !SameWork(g, w.goal.task, w.goal.input, w.goal.attempt))
    && (w.attempt.None? ==> w.goal.attempt in db.attempts && GoalAttemptOf(db.attempts[w.goal.attempt], w.goal))
  }

  lemma {:induction false} MessagesMeaning(ms: seq<Message>, es: seq<Event>, task: nat)
    ensures FirstBadMessage(ms, es, task).None? <==>
            forall m :: 0 <= m < |ms| ==> HasEvent(es, ms[m].event) && ms[m].aggregate == task
  {
    if ms != [] {
      hide HasEvent;
      MessagesMeaning(ms[1..], es, task);
      assert forall m :: 0 <= m < |ms[1..]| ==> ms[1..][m] == ms[m + 1];
      assert forall m :: 0 < m < |ms| ==> ms[m] == ms[1..][m - 1];
    }
  }

  lemma {:induction false} NoticeMeaning(w: GoalWrites)
    ensures NoticeContract(w).None? <==>
            && Notices(w.events, w.messages, w.goal.task)
            && (forall m :: 0 <= m < |w.messages| ==> w.messages[m].aggregate == w.goal.task)
            && HasKind(w.events, "GOAL_UNDERSTANDING_COMPLETED")
            && (w.goal.outcome == "REQUEST_USER_INPUT" ==> HasKind(w.events, "USER_INPUT_REQUESTED"))
  {
    hide HasEvent, HasKind;
    MessagesMeaning(w.messages, w.events, w.goal.task);
  }

  lemma {:induction false} GoalContractMeaning(w: GoalWrites)
    ensures GoalContract(w).None? <==> GoalWellFormed(w)
  {
    hide Notices, NoticeContract;
    NoticeMeaning(w);
  }

  lemma {:induction false} GoalFenceMeaning(db: Db, w: GoalWrites, now: int)
    requires GoalWellFormed(w) && w.goal.task in db.tasks
    ensures GoalFits(db, w, now) <==>
            && FindGoal(db.goals, w.goal.task, w.goal.input, w.goal.attempt).None?
               && GoalById(db.goals, w.goal.id).None?
            && GoalFence(db, w).None? && now < db.tasks[w.goal.task].deadline
  {
    hide Notices, Rounds, FindGoal, GoalById, HasEvent;
    var found, same := FindGoal(db.goals, w.goal.task, w.goal.input, w.goal.attempt), GoalById(db.goals, w.goal.id);
    assert found.Some? ==> found.value in db.goals;
    assert same.Some? ==> same.value in db.goals;
  }

  /** A goal commits exactly when its write set is well-formed, fits the rows, and passes the constraints. */
  lemma {:induction false} GoalCommitsExactlyWhen(db: Db, w: GoalWrites, now: int)
    ensures GoalDecision(db, w, now).Commit? <==>
            GoalWellFormed(w) && GoalFits(db, w, now) && GoalInsertable(db, w)
  {
    GoalContractMeaning(w);
    hide GoalWellFormed, GoalContract, GoalInsertable, GoalFence, FindGoal, GoalById;
    if GoalWellFormed(w) && w.goal.task in db.tasks {
      GoalFenceMeaning(db, w, now);
    }
  }

  /** Only task `t` differs, and in it only status, active plan, version and counter. */
  predicate OnlyTask(db: Db, next: Db, t: nat) {
    && t in db.tasks && next.tasks.Keys == db.tasks.Keys
    && (forall u :: u in db.tasks && u != t ==> next.tasks[u] == db.tasks[u])
    && next.tasks[t].input == db.tasks[t].input && next.tasks[t].deadline == db.tasks[t].deadline
  }

  /** What a committed goal leaves: its row, its attempt and its question, and a task that waits for the
      answer exactly when there is a question, one version on. */
  lemma {:induction false} GoalLeavesBehind(db: Db, w: GoalWrites, now: int)
    requires Commits(db, GoalDone(w, now))
    ensures var next := Next(db, GoalDone(w, now));
            && OnlyTask(db, next, w.goal.task) && next.tasks[w.goal.task].activePlan.None?
            && next.tasks[w.goal.task].status == (if w.request.Some? then WaitingUserInput else Planning)
            && next.tasks[w.goal.task].version == w.expectedVersion + 1
            && next.goals == db.goals + [w.goal] && next.messages == db.messages + w.messages
            && next.requests == db.requests + (if w.request.Some? then [w.request.value] else [])
            && next.attempts.Keys == db.attempts.Keys + (if w.attempt.Some? then {w.attempt.value.id} else {})
            && (forall a :: a in db.attempts ==> next.attempts[a] == db.attempts[a])
            && (w.attempt.Some? ==> next.attempts[w.attempt.value.id] == w.attempt.value)
            && next.plans == db.plans && next.definitions == db.definitions && next.runtime == db.runtime
  {
    GoalCommitsExactlyWhen(db, w, now);
    GoalCommits(db, w, now);
    hide GoalDecision, Notices, GoalTable, RequestTable, EventTable, MessageTable, GoalContract, GoalFence, Rounds;
  }

  /** The relation of a goal write set that a code names is violated. */
  predicate GoalFault(code: string, w: GoalWrites) {
    match code
    case "GOAL_EXPECTED_TASK_VERSION_INVALID" => w.expectedVersion < 1
    case "GOAL_ATTEMPT_ID_MISMATCH" => w.attempt.Some? && w.attempt.value.id != w.goal.attempt
    case "GOAL_ATTEMPT_SCOPE_MISMATCH" =>
      w.attempt.Some? && (w.attempt.value.task != w.goal.task || w.attempt.value.input != w.goal.input)
    case "GOAL_ATTEMPT_KIND_INVALID" =>
      w.attempt.Some? && (w.attempt.value.kind != "GOAL_UNDERSTANDING" || w.attempt.value.planVersion.Some?)
    case "GOAL_ATTEMPT_NOT_COMPLETED" => w.attempt.Some? && w.attempt.value.status != "COMPLETED"
    case "GOAL_READY_REQUEST_FORBIDDEN" => w.goal.outcome == "READY_TO_PLAN" && w.request.Some?
    case "GOAL_CLARIFICATION_REQUEST_REQUIRED" => w.goal.outcome == "REQUEST_USER_INPUT" && w.request.None?
    case "GOAL_REQUEST_SCOPE_MISMATCH" =>
      && w.request.Some?
      && (w.request.value.task != w.goal.task || w.request.value.input != w.goal.input
          || w.request.value.attempt != w.goal.attempt || w.request.value.goal != Some(w.goal.id))
    case "GOAL_REQUEST_STATE_INVALID" =>
      w.request.Some? && (w.request.value.origin != "GOAL_CLARIFICATION" || w.request.value.status != "PENDING")
    case "GOAL_GATE_OUTCOME_INVALID" => w.goal.outcome != "READY_TO_PLAN" && w.goal.outcome != "REQUEST_USER_INPUT"
    case "GOAL_EVENT_ID_DUPLICATE" => exists i, j :: 0 <= i < j < |w.events| && w.events[i].id == w.events[j].id
    case "GOAL_EVENT_TASK_MISMATCH" => exists i :: 0 <= i < |w.events| && w.events[i].task != w.goal.task
    case "GOAL_COMPLETION_EVENT_REQUIRED" => !HasKind(w.events, "GOAL_UNDERSTANDING_COMPLETED")
    case "GOAL_USER_INPUT_EVENT_REQUIRED" => !HasKind(w.events, "USER_INPUT_REQUESTED")
    case "GOAL_OUTBOX_EVENT_UNKNOWN" => exists m :: 0 <= m < |w.messages| && !HasEvent(w.events, w.messages[m].event)
    case "GOAL_OUTBOX_TASK_MISMATCH" => exists m :: 0 <= m < |w.messages| && w.messages[m].aggregate != w.goal.task
    case "GOAL_OUTBOX_DUPLICATE" => !DistinctTargets(w.messages)
    case "GOAL_OUTBOX_REQUIRED" => w.messages == []
    case _ => false
  }

  lemma {:induction false} BadMessage(ms: seq<Message>, es: seq<Event>, task: nat)
    ensures FirstBadMessage(ms, es, task) == Some("GOAL_OUTBOX_EVENT_UNKNOWN") ==>
              exists m :: 0 <= m < |ms| && !HasEvent(es, ms[m].event)
    ensures FirstBadMessage(ms, es, task) == Some("GOAL_OUTBOX_TASK_MISMATCH") ==>
              exists m :: 0 <= m < |ms| && ms[m].aggregate != task
    ensures FirstBadMessage(ms, es, task).Some? ==>
              FirstBadMessage(ms, es, task).value in {"GOAL_OUTBOX_EVENT_UNKNOWN", "GOAL_OUTBOX_TASK_MISMATCH"}
  {
    if ms != [] {
      hide HasEvent;
      BadMessage(ms[1..], es, task);
      assert forall m :: 0 <= m < |ms[1..]| ==> ms[1..][m] == ms[m + 1];
    }
  }

  lemma {:induction false} AttemptFault(w: GoalWrites)
    requires w.attempt.Some?
    ensures AttemptContract(w.goal, w.attempt.value).Some? ==>
              GoalFault(AttemptContract(w.goal, w.attempt.value).value, w)
  {
    hide HasEvent, HasKind, DistinctTargets;
  }

  lemma {:induction false} RequestFault(w: GoalWrites)
    ensures RequestContract(w.goal, w.request).Some? ==> GoalFault(RequestContract(w.goal, w.request).value, w)
  {
    hide HasEvent, HasKind, DistinctTargets;
  }

  lemma {:induction false} NoticeFault(w: GoalWrites)
    ensures NoticeContract(w).Some? ==> GoalFault(NoticeContract(w).value, w)
  {
    BadMessage(w.messages, w.events, w.goal.task);
    hide FirstBadMessage, HasEvent, HasKind, DistinctTargets;
  }

  lemma {:induction false} VersionFault(w: GoalWrites)
    ensures w.expectedVersion < 1 ==> GoalFault("GOAL_EXPECTED_TASK_VERSION_INVALID", w)
  {
  }

  lemma {:induction false} GoalFaultIsTrue(w: GoalWrites)
    ensures GoalContract(w).Some? ==> GoalFault(GoalContract(w).value, w)
  {
    hide GoalFault, AttemptContract, RequestContract, NoticeContract;
    VersionFault(w);
    if w.attempt.Some? {
      AttemptFault(w);
    }
    RequestFault(w);
    NoticeFault(w);
  }

  /** What a conflict says about the rows is so, and what is looked at before it is in order. */
  predicate GoalConflict(code: string, db: Db, w: GoalWrites, now: int)
    requires w.goal.task in db.tasks
  {
    var t := db.tasks[w.goal.task];
    var planning := t.status == Planning;
    var current := planning && t.input == w.goal.input && t.activePlan.None?;
    match code
    case "GOAL_COMPLETION_REPLAY_CONFLICT" =>
      exists g :: g in db.goals && (g.id == w.goal.id || SameWork(g, w.goal.task, w.goal.input, w.goal.attempt))
    case "GOAL_TASK_STATUS_CONFLICT" => !planning
    case "GOAL_INPUT_CONFLICT" => planning && t.input != w.goal.input
    case "GOAL_ACTIVE_PLAN_CONFLICT" => planning && t.input == w.goal.input && t.activePlan.Some?
    case "GOAL_TASK_VERSION_CONFLICT" => current && t.version != w.expectedVersion
    case "GOAL_ATTEMPT_CONFLICT" =>
      && current && t.version == w.expectedVersion && w.attempt.None?
      && (w.goal.attempt !in db.attempts || !GoalAttemptOf(db.attempts[w.goal.attempt], w.goal))
    case "GOAL_REQUEST_DEADLINE_CONFLICT" =>
      && current && t.version == w.expectedVersion && w.request.Some?
      && (w.request.value.requestedAt >= w.request.value.expiresAt || w.request.value.expiresAt > t.deadline)
    case "GOAL_CLARIFICATION_ROUND_CONFLICT" =>
      && current && t.version == w.expectedVersion && w.request.Some?
      && (|Rounds(db.requests, w.goal.task)| > 1
          || w.request.value.round != Some(|Rounds(db.requests, w.goal.task)| + 1))
    case "GOAL_COMPLETION_CAS_CONFLICT" => current && t.version == w.expectedVersion && t.deadline <= now
    case _ => false
  }

  /** Every answer to a goal: the code of a refusal is true of the write set or of the rows, and a replay is told
      so exactly when the same work was stored with the same decision. */
  lemma {:induction false} GoalAnswers(db: Db, w: GoalWrites, now: int)
    requires GoalTable(db.goals)
    ensures var d := GoalDecision(db, w, now);
            match d
            case Refuse(ContractViolated(code)) => GoalFault(code, w)
            case Refuse(TaskNotFound) => GoalWellFormed(w) && w.goal.task !in db.tasks
            case Refuse(Conflict(code)) =>
              GoalWellFormed(w) && w.goal.task in db.tasks && GoalConflict(code, db, w, now)
            case Refuse(IntegrityViolated) =>
              GoalWellFormed(w) && w.goal.task in db.tasks && !GoalInsertable(db, w)
            case AlreadyDone => w.goal.task in db.tasks && exists g :: g in db.goals && GoalRepeats(g, w.goal)
            case Commit => true
    ensures GoalWellFormed(w) && w.goal.task in db.tasks && (exists g :: g in db.goals && GoalRepeats(g, w.goal)) ==>
              GoalDecision(db, w, now) == AlreadyDone
  {
    GoalFaultIsTrue(w);
    GoalContractMeaning(w);
    hide GoalContract, GoalFault, GoalWellFormed, GoalInsertable, Rounds;
    var found, same := FindGoal(db.goals, w.goal.task, w.goal.input, w.goal.attempt), GoalById(db.goals, w.goal.id);
    hide FindGoal, GoalById;
    if GoalWellFormed(w) {
      AttemptGivenOk(w);
    }
    forall g | g in db.goals && GoalRepeats(g, w.goal)
      ensures found == Some(g)
    {
      GoalUnique(db.goals, g, found);
    }
  }

  predicate GoalRepeats(a: Goal, b: Goal) {
    && a.task == b.task && a.input == b.input && a.attempt == b.attempt
    && a.digest == b.digest && a.gateDigest == b.gateDigest && a.outcome == b.outcome
  }

  lemma {:induction false} AttemptGivenOk(w: GoalWrites)
    requires GoalWellFormed(w)
    ensures w.attempt.Some? ==> GoalAttemptReady(w.goal, w.attempt)
  {
  }

  lemma {:induction false} GoalUnique(gs: seq<Goal>, g: Goal, found: Option<Goal>)
    requires GoalTable(gs) && g in gs && found == FindGoal(gs, g.task, g.input, g.attempt)
    ensures found == Some(g)
  {
    var i :| 0 <= i < |gs| && gs[i] == g;
    var j :| 0 <= j < |gs| && gs[j] == found.value;
    assert !(i < j) && !(j < i);
  }

  // While a question is open.

  /** Others leave the task's status alone throughout the run. */
  ghost predicate Unmoved(db: Db, steps: seq<Step>, t: nat) {
    forall k :: 0 <= k < |steps| && steps[k].Others? ==>
      var before := Run(db, steps[..k]);
      t in before.tasks && t in steps[k].next.tasks && steps[k].next.tasks[t].status == before.tasks[t].status
  }

  predicate GoalOrPlanOf(s: Step, t: nat) {
    (s.GoalDone? && s.goal.goal.task == t) || (s.Activation? && s.plan.plan.task == t)
  }

  ghost predicate Waits(db: Db, t: nat) {
    t in db.tasks && (db.tasks[t].status == WaitingUserInput || db.tasks[t].status == CancelRequested)
  }

  /** No goal and no plan of task `t` commits at any point of the run. */
  ghost predicate Refused(db: Db, steps: seq<Step>, t: nat) {
    forall k :: 0 <= k < |steps| && GoalOrPlanOf(steps[k], t) ==> !Commits(Run(db, steps[..k]), steps[k])
  }

  lemma {:induction false} RefusedSnoc(db: Db, steps: seq<Step>, t: nat)
    requires steps != [] && Refused(db, steps[..|steps| - 1], t)
    requires var s := steps[|steps| - 1];
             GoalOrPlanOf(s, t) ==> !Commits(Run(db, steps[..|steps| - 1]), s)
    ensures Refused(db, steps, t)
  {
    hide Commits, Run, GoalOrPlanOf;
    var before := steps[..|steps| - 1];
    forall k | 0 <= k < |steps| && GoalOrPlanOf(steps[k], t)
      ensures !Commits(Run(db, steps[..k]), steps[k])
    {
      if k < |before| {
        assert before[..k] == steps[..k] && before[k] == steps[k];
      }
    }
  }

  lemma {:induction false} UnmovedInit(db: Db, steps: seq<Step>, t: nat)
    requires Unmoved(db, steps, t) && steps != []
    ensures Unmoved(db, steps[..|steps| - 1], t)
    ensures var before, s := Run(db, steps[..|steps| - 1]), steps[|steps| - 1];
            s.Others? ==> t in before.tasks && t in s.next.tasks && s.next.tasks[t].status == before.tasks[t].status
  {
    hide Run;
    var before := steps[..|steps| - 1];
    assert forall k :: 0 <= k < |before| ==> before[..k] == steps[..k] && before[k] == steps[k];
  }

  lemma {:induction false} WaitsRefuses(db: Db, s: Step, t: nat)
    requires Waits(db, t) && GoalOrPlanOf(s, t)
    ensures !Commits(db, s)
  {
    hide GoalWellFormed, GoalInsertable, GoalDecision, PlanDecision, PlanFence, GoalFence;
    match s {
      case GoalDone(w, now) => GoalCommitsExactlyWhen(db, w, now);
      case Activation(w, now) =>
        if PlanDecision(db, w, now).Commit? {
          PlanCommits(db, w, now);
          PlanFenced(db, w);
        }
    }
  }

  lemma {:induction false} WaitsOn(db: Db, s: Step, t: nat)
    requires Waits(db, t) && Legal(db, s)
    requires s.Others? ==> t in s.next.tasks && s.next.tasks[t].status == db.tasks[t].status
    ensures Waits(Next(db, s), t)
  {
    if GoalOrPlanOf(s, t) {
      WaitsRefuses(db, s, t);
    }
    hide GoalDecision, PlanDecision, OthersMay, GoalContract, GoalInsertable, PlanFence;
    hide CreateContract, CancelContract, EventTable, MessageTable;
    if Commits(db, s) {
      match s
      case GoalDone(w, now) => GoalCommits(db, w, now);
      case Activation(w, now) =>
        PlanCommits(db, w, now);
        TaskStore.AttemptGiven(db, w);
      case _ =>
    }
  }

  lemma {:induction false} WaitsThrough(db: Db, steps: seq<Step>, t: nat)
    requires Waits(db, t) && LegalRun(db, steps) && Unmoved(db, steps, t)
    ensures Waits(Run(db, steps), t) && Refused(db, steps, t)
  {
    if steps != [] {
      RunUnfold(db, steps);
      UnmovedInit(db, steps, t);
      var before, s := steps[..|steps| - 1], steps[|steps| - 1];
      hide *;
      WaitsThrough(db, before, t);
      WaitsOn(Run(db, before), s, t);
      if GoalOrPlanOf(s, t) {
        WaitsRefuses(Run(db, before), s, t);
      }
      RefusedSnoc(db, steps, t);
    }
  }

  /** After a goal that asks the user, no goal and no plan of that task commits in any later run, until
      another transaction moves the task on. */
  lemma {:induction false} QuestionHolds(db: Db, w: GoalWrites, now: int, steps: seq<Step>)
    requires Commits(db, GoalDone(w, now)) && w.request.Some?
    requires LegalRun(Next(db, GoalDone(w, now)), steps) && Unmoved(Next(db, GoalDone(w, now)), steps, w.goal.task)
    ensures var next := Next(db, GoalDone(w, now));
            && next.tasks[w.goal.task].status == WaitingUserInput && w.request.value in next.requests
            && Refused(next, steps, w.goal.task)
  {
    GoalLeavesBehind(db, w, now);
    var next := Next(db, GoalDone(w, now));
    assert next.requests[|db.requests|] == w.request.value;
    hide Commits, Next, LegalRun, Unmoved, Refused;
    WaitsThrough(next, steps, w.goal.task);
  }

  // Plans.

  predicate OfVersion(cs: seq<Child>, p: Plan) {
    forall i :: 0 <= i < |cs| ==> cs[i].task == p.task && cs[i].version == p.version
  }

  predicate OnePerItem(cs: seq<Child>) {
    forall i, j :: 0 <= i < j < |cs| ==> cs[i].item != cs[j].item
  }

  function ItemSet(cs: seq<Child>): set<nat> {
    set i | 0 <= i < |cs| :: cs[i].item
  }

  predicate PlanWellFormed(w: PlanWrites) {
    && w.plan.status == "ACTIVE" && w.plan.activatedAt.Some? && w.plan.completedAt.None?
    && (w.plan.predecessor.Some? ==> w.plan.predecessor.value < w.plan.version)
    && OfVersion(w.items, w.plan) && OfVersion(w.others, w.plan) && OfVersion(w.runtime, w.plan)
    && OnePerItem(w.items) && OnePerItem(w.runtime) && ItemSet(w.items) == ItemSet(w.runtime)
    && (w.attempt.Some? ==>
          var a := w.attempt.value;
          a.id == w.plan.attempt && a.task == w.plan.task && a.input == w.plan.input && a.agent == w.plan.agent)
    && (w.goal.Some? ==>
          var g := w.goal.value;
          g.id == w.plan.goal && g.task == w.plan.task && g.input == w.plan.input)
    && w.completion.Some?
    && (var c := w.completion.value;
        && c.attempt == w.plan.attempt && c.rowVersion >= 1 && c.kind == "SUCCEEDED"
        && c.schema == "attempt_completed_v1" && |c.digest| == 64
        && forall i :: 0 <= i < 64 ==> c.digest[i] in "0123456789abcdef")
    && (forall i :: 0 <= i < |w.events| ==> w.events[i].task == w.plan.task)
    && (forall i, j :: 0 <= i < j < |w.events| ==> w.events[i].id != w.events[j].id)
    && (forall m :: 0 <= m < |w.messages| ==> HasEvent(w.events, w.messages[m].event))
    && (forall m, n :: 0 <= m < n < |w.messages| ==>
          w.messages[m].event != w.messages[n].event || w.messages[m].destination != w.messages[n].destination)
  }

  /** The goal that the plan rests on: ready, for this task and its input, with its attempt done. */
  predicate RestsOn(db: Db, w: PlanWrites, g: Goal) {
    && (if w.goal.Some? then g == w.goal.value else g in db.goals && g.id == w.plan.goal)
    && g.task == w.plan.task && g.input == w.plan.input && g.outcome == "READY_TO_PLAN"
    && g.attempt in db.attempts
    && (var a := db.attempts[g.attempt];
        && a.task == w.plan.task && a.input == w.plan.input && a.kind == "GOAL_UNDERSTANDING"
        && a.status == "COMPLETED")
  }

  /** The attempt that made the plan: still running, by the plan's agent, at the expected row version, and
      not over before it began. */
  predicate MadeBy(w: PlanWrites, a: Attempt)
    requires w.completion.Some?
  {
    && a.task == w.plan.task && a.input == w.plan.input && a.kind == "PLAN" && a.planVersion == Some(1)
    && a.agent == w.plan.agent && a.status == "RUNNING" && a.rowVersion == w.completion.value.rowVersion
    && (a.createdAt.Some? ==> a.createdAt.value <= w.completion.value.endedAt)
    && (a.startedAt.Some? ==> a.startedAt.value <= w.completion.value.endedAt)
  }

  /** Its attempt, handed in or stored, made it. */
  predicate Made(db: Db, w: PlanWrites)
    requires w.completion.Some?
  {
    if w.attempt.Some? then MadeBy(w, w.attempt.value)
    else w.plan.attempt in db.attempts && MadeBy(w, db.attempts[w.plan.attempt])
  }

  /** A first plan, for a task that plans on this very input before its deadline. */
  ghost predicate PlanFits(db: Db, w: PlanWrites, now: int)
    requires w.completion.Some?
  {
    && w.plan.task in db.tasks
    && (var t := db.tasks[w.plan.task];
        t.status == Planning && t.input == w.plan.input && t.activePlan.None? && now < t.deadline)
    && w.plan.predecessor.None? && w.plan.version == 1 && w.plan.reason == "NEW_TASK"
    && (exists g :: RestsOn(db, w, g))
    && Made(db, w)
    && (exists i :: 0 <= i < |w.events| && w.events[i].kind == "PLAN_ACTIVATED") && w.messages != []
  }

  lemma {:induction false} ItemsMeaning(a: seq<Child>, b: seq<Child>)
    ensures Covers(a, b) && Covers(b, a) <==> ItemSet(a) == ItemSet(b)
  {
    if Covers(a, b) && Covers(b, a) {
      CoversSubset(a, b);
      CoversSubset(b, a);
    }
    if ItemSet(a) == ItemSet(b) {
      SubsetCovers(a, b);
      SubsetCovers(b, a);
    }
  }

  lemma {:induction false} CoversSubset(a: seq<Child>, b: seq<Child>)
    requires Covers(a, b)
    ensures ItemSet(a) <= ItemSet(b)
  {
    forall x | x in ItemSet(a)
      ensures x in ItemSet(b)
    {
      var i :| 0 <= i < |a| && a[i].item == x;
      assert HasItem(b, a[i].item);
    }
  }

  lemma {:induction false} SubsetCovers(a: seq<Child>, b: seq<Child>)
    requires ItemSet(a) <= ItemSet(b)
    ensures Covers(a, b)
  {
    forall i | 0 <= i < |a|
      ensures HasItem(b, a[i].item)
    {
      assert a[i].item in ItemSet(a);
      assert a[i].item in ItemSet(b);
    }
  }

  lemma {:induction false} DigestMeaning(s: string)
    ensures LowerHex64(s) <==> |s| == 64 && forall i :: 0 <= i < 64 ==> s[i] in "0123456789abcdef"
  {
    forall c: char
      ensures ('0' <= c <= '9' || 'a' <= c <= 'f') <==> c in "0123456789abcdef"
    {
      HexDigit(c);
    }
  }

  lemma {:induction false} HexDigit(c: char)
    ensures ('0' <= c <= '9' || 'a' <= c <= 'f') <==> c in "0123456789abcdef"
  {
    var hex := "0123456789abcdef";
    if '0' <= c <= '9' {
      assert hex[c as int - '0' as int] == c;
    }
    if 'a' <= c <= 'f' {
      assert hex[10 + c as int - 'a' as int] == c;
    }
  }

  lemma {:induction false} ChildrenMeaning(w: PlanWrites)
    ensures ChildrenContract(w).None? <==>
            && OfVersion(w.items, w.plan) && OfVersion(w.others, w.plan) && OfVersion(w.runtime, w.plan)
            && OnePerItem(w.items) && OnePerItem(w.runtime) && ItemSet(w.items) == ItemSet(w.runtime)
  {
    ItemsMeaning(w.items, w.runtime);
    hide Covers, ItemSet;
  }

  lemma {:induction false} PlanNoticeMeaning(w: PlanWrites)
    ensures PlanNoticeContract(w).None? <==>
            && (forall i :: 0 <= i < |w.events| ==> w.events[i].task == w.plan.task)
            && (forall i, j :: 0 <= i < j < |w.events| ==> w.events[i].id != w.events[j].id)
            && (forall m :: 0 <= m < |w.messages| ==> HasEvent(w.events, w.messages[m].event))
            && (forall m, n :: 0 <= m < n < |w.messages| ==>
                  w.messages[m].event != w.messages[n].event || w.messages[m].destination != w.messages[n].destination)
  {
    hide HasEvent;
  }

  lemma {:induction false} VersionMeaning(w: PlanWrites)
    ensures VersionContract(w).None? && w.completion.Some? <==>
            && w.plan.status == "ACTIVE" && w.plan.activatedAt.Some? && w.plan.completedAt.None?
            && (w.plan.predecessor.Some? ==> w.plan.predecessor.value < w.plan.version)
            && w.completion.Some?
            && (var c := w.completion.value;
                && c.attempt == w.plan.attempt && c.rowVersion >= 1 && c.kind == "SUCCEEDED"
                && c.schema == "attempt_completed_v1" && |c.digest| == 64
                && forall i :: 0 <= i < 64 ==> c.digest[i] in "0123456789abcdef")
  {
    if w.completion.Some? {
      DigestMeaning(w.completion.value.digest);
    }
    hide LowerHex64;
  }

  lemma {:induction false} PlanContractMeaning(w: PlanWrites)
    ensures PlanContract(w).None? <==> PlanWellFormed(w)
  {
    VersionMeaning(w);
    ChildrenMeaning(w);
    PlanNoticeMeaning(w);
    hide VersionContract, ChildrenContract, PlanNoticeContract, OfVersion, OnePerItem, ItemSet, HasEvent;
  }

  lemma {:induction false} GoalByIdMeaning(gs: seq<Goal>, id: nat, g: Goal)
    requires GoalTable(gs)
    ensures GoalById(gs, id) == Some(g) <==> g in gs && g.id == id
  {
    var found := GoalById(gs, id);
    if g in gs && g.id == id {
      var i :| 0 <= i < |gs| && gs[i] == g;
      var j :| 0 <= j < |gs| && gs[j] == found.value;
      assert !(i < j) && !(j < i);
    }
  }

  lemma {:induction false} PlanGoalMeaning(db: Db, w: PlanWrites, g: Goal)
    requires GoalTable(db.goals)
    ensures PlanGoal(db, w) == Some(g)
            <==> if w.goal.Some? then g == w.goal.value else g in db.goals && g.id == w.plan.goal
  {
    GoalByIdMeaning(db.goals, w.plan.goal, g);
  }

  lemma {:induction false} PlanFenceMeaning(db: Db, w: PlanWrites, now: int)
    requires PlanWellFormed(w) && w.plan.task in db.tasks && GoalTable(db.goals)
    ensures PlanFits(db, w, now) <==>
            && db.tasks[w.plan.task].activePlan == w.plan.predecessor
            && PlanFence(db, w).None? && now < db.tasks[w.plan.task].deadline
  {
    hide GoalTable, PlanGoal, GoalById, HasEvent, OfVersion, OnePerItem, ItemSet;
    var goal := PlanGoal(db, w);
    if goal.Some? {
      PlanGoalMeaning(db, w, goal.value);
    }
    if PlanFits(db, w, now) {
      var g :| RestsOn(db, w, g);
      PlanGoalMeaning(db, w, g);
      assert goal == Some(g);
    } else if PlanFence(db, w).None? {
      assert RestsOn(db, w, goal.value);
    }
  }

  /** A plan is activated exactly when its write set is well-formed, fits the rows, and passes the constraints. */
  lemma {:induction false} PlanCommitsExactlyWhen(db: Db, w: PlanWrites, now: int)
    requires GoalTable(db.goals)
    ensures PlanDecision(db, w, now).Commit? <==>
            PlanWellFormed(w) && PlanFits(db, w, now) && PlanInsertable(db, w)
  {
    PlanContractMeaning(w);
    if PlanWellFormed(w) && w.plan.task in db.tasks {
      PlanFenceMeaning(db, w, now);
    }
    hide PlanWellFormed, PlanContract, PlanInsertable, PlanFence, PlanReplay, GoalTable;
    if PlanWellFormed(w) {
      CompletionOf(w);
    }
  }

  lemma {:induction false} CompletionOf(w: PlanWrites)
    requires PlanWellFormed(w)
    ensures w.completion.Some?
  {
  }

  /** The relation of an activation write set that a code names is violated. */
  predicate PlanFault(code: string, w: PlanWrites) {
    match code
    case "PLAN_ACTIVATION_STATUS_NOT_ACTIVE" => w.plan.status != "ACTIVE"
    case "PLAN_ACTIVATION_TIME_SHAPE_INVALID" => w.plan.activatedAt.None? || w.plan.completedAt.Some?
    case "PLAN_PREDECESSOR_INVALID" => w.plan.predecessor.Some? && w.plan.predecessor.value >= w.plan.version
    case "PLAN_ATTEMPT_ROW_VERSION_INVALID" => w.completion.Some? && w.completion.value.rowVersion < 1
    case "PLAN_ATTEMPT_RESULT_KIND_INVALID" => w.completion.Some? && w.completion.value.kind != "SUCCEEDED"
    case "PLAN_ATTEMPT_RESULT_SCHEMA_INVALID" =>
      w.completion.Some? && w.completion.value.schema != "attempt_completed_v1"
    case "PLAN_ATTEMPT_RESULT_DIGEST_INVALID" => w.completion.Some? && !LowerHex64(w.completion.value.digest)
    case "PLAN_ATTEMPT_COMPLETION_ID_MISMATCH" => w.completion.Some? && w.completion.value.attempt != w.plan.attempt
    case "PLAN_ATTEMPT_COMPLETION_REQUIRED" => w.completion.None?
    case "PLAN_CHILD_TASK_OR_VERSION_MISMATCH" =>
      !OfVersion(w.items, w.plan) || !OfVersion(w.others, w.plan) || !OfVersion(w.runtime, w.plan)
    case "PLAN_ITEM_ID_DUPLICATE" => !OnePerItem(w.items)
    case "PLAN_RUNTIME_ITEM_COVERAGE_MISMATCH" => ItemSet(w.items) != ItemSet(w.runtime)
    case "PLAN_RUNTIME_ITEM_DUPLICATE" => !OnePerItem(w.runtime)
    case "PLAN_ATTEMPT_ID_MISMATCH" => w.attempt.Some? && w.attempt.value.id != w.plan.attempt
    case "PLAN_ATTEMPT_TASK_MISMATCH" => w.attempt.Some? && w.attempt.value.task != w.plan.task
    case "PLAN_ATTEMPT_INPUT_MISMATCH" => w.attempt.Some? && w.attempt.value.input != w.plan.input
    case "PLAN_ATTEMPT_AGENT_MISMATCH" => w.attempt.Some? && w.attempt.value.agent != w.plan.agent
    case "PLAN_GOAL_ID_MISMATCH" => w.goal.Some? && w.goal.value.id != w.plan.goal
    case "PLAN_GOAL_TASK_MISMATCH" => w.goal.Some? && w.goal.value.task != w.plan.task
    case "PLAN_GOAL_INPUT_MISMATCH" => w.goal.Some? && w.goal.value.input != w.plan.input
    case "PLAN_EVENT_ID_DUPLICATE" => !DistinctIds(w.events)
    case "PLAN_EVENT_TASK_MISMATCH" => exists i :: 0 <= i < |w.events| && w.events[i].task != w.plan.task
    case "PLAN_OUTBOX_EVENT_UNKNOWN" => exists m :: 0 <= m < |w.messages| && !HasEvent(w.events, w.messages[m].event)
    case "PLAN_OUTBOX_DUPLICATE" => !DistinctTargets(w.messages)
    case _ => false
  }

  lemma {:induction false} CompletionFault(w: PlanWrites)
    requires w.completion.Some?
    ensures CompletionContract(w.completion.value).Some? ==>
              PlanFault(CompletionContract(w.completion.value).value, w)
  {
    hide LowerHex64, HasEvent, DistinctTargets, DistinctIds, ItemSet, OfVersion, OnePerItem;
  }

  lemma {:induction false} PlanVersionFault(w: PlanWrites)
    ensures VersionContract(w).Some? ==> PlanFault(VersionContract(w).value, w)
    ensures w.completion.None? ==> PlanFault("PLAN_ATTEMPT_COMPLETION_REQUIRED", w)
  {
    if w.completion.Some? {
      CompletionFault(w);
    }
    hide CompletionContract, LowerHex64, HasEvent, DistinctTargets, DistinctIds, ItemSet, OfVersion, OnePerItem;
  }

  lemma {:induction false} ChildrenFault(w: PlanWrites)
    ensures ChildrenContract(w).Some? ==> PlanFault(ChildrenContract(w).value, w)
  {
    ItemsMeaning(w.items, w.runtime);
    hide LowerHex64, HasEvent, DistinctTargets, DistinctIds, ItemSet, Covers;
  }

  lemma {:induction false} SourceFault(w: PlanWrites)
    ensures SourceContract(w).Some? ==> PlanFault(SourceContract(w).value, w)
  {
    hide LowerHex64, HasEvent, DistinctTargets, DistinctIds, ItemSet, OfVersion, OnePerItem;
  }

  lemma {:induction false} PlanNoticeFault(w: PlanWrites)
    ensures PlanNoticeContract(w).Some? ==> PlanFault(PlanNoticeContract(w).value, w)
  {
    hide LowerHex64, HasEvent, DistinctTargets, DistinctIds, ItemSet, OfVersion, OnePerItem;
  }

  lemma {:induction false} PlanFaultIsTrue(w: PlanWrites)
    ensures PlanContract(w).Some? ==> PlanFault(PlanContract(w).value, w)
  {
    hide PlanFault, VersionContract, ChildrenContract, SourceContract, PlanNoticeContract;
    PlanVersionFault(w);
    ChildrenFault(w);
    SourceFault(w);
    PlanNoticeFault(w);
  }

  /** What a conflict says about the rows is so. */
  ghost predicate PlanConflict(code: string, db: Db, w: PlanWrites, now: int)
    requires w.plan.task in db.tasks && w.completion.Some?
  {
    var t := db.tasks[w.plan.task];
    var planning := t.status == Planning && t.input == w.plan.input;
    match code
    case "PLAN_ACTIVATION_PREDECESSOR_CONFLICT" => t.activePlan != w.plan.predecessor
    case "PLAN_ATTEMPT_TERMINAL_STATE_CONFLICT" =>
      && t.activePlan == Some(w.plan.version)
      && (w.plan.attempt !in db.attempts || !PlanResult(db.attempts[w.plan.attempt], w.completion.value))
    case "PLAN_ACTIVATION_TASK_STATUS_CONFLICT" => t.status != Planning
    case "PLAN_ACTIVATION_INPUT_CONFLICT" => t.status == Planning && t.input != w.plan.input
    case "PLAN_ACTIVATION_GOAL_CONFLICT" => planning && !exists g :: RestsOn(db, w, g)
    case "PLAN_ACTIVATION_GOAL_ATTEMPT_CONFLICT" => planning && !exists g :: RestsOn(db, w, g)
    case "PLAN_ACTIVATION_ATTEMPT_CONFLICT" =>
      planning && (exists g :: RestsOn(db, w, g)) && !Made(db, w)
    case "PLAN_ATTEMPT_COMPLETION_TIME_CONFLICT" =>
      planning && (exists g :: RestsOn(db, w, g)) && !Made(db, w)
    case "PLAN_ACTIVATION_CAS_CONFLICT" => planning && t.deadline <= now
    case _ => false
  }

  /** The attempt ended as the completion says. */
  predicate PlanResult(a: Attempt, c: Completion) {
    && a.status == "COMPLETED" && a.resultKind == Some(c.kind) && a.resultSchema == Some(c.schema)
    && a.resultDigest == Some(c.digest) && a.endedAt == Some(c.endedAt)
  }

  predicate PlanRepeats(a: Plan, b: Plan) {
    && a.task == b.task && a.version == b.version && a.attempt == b.attempt && a.digest == b.digest
    && a.input == b.input && a.goal == b.goal && a.status == "ACTIVE"
  }

  lemma {:induction false} PlanUnique(ps: seq<Plan>, p: Plan, task: nat, version: nat)
    requires PlanTable(ps)
    ensures FindPlan(ps, task, version) == Some(p) <==> p in ps && p.task == task && p.version == version
  {
    var found := FindPlan(ps, task, version);
    if p in ps && p.task == task && p.version == version {
      var i :| 0 <= i < |ps| && ps[i] == p;
      var j :| 0 <= j < |ps| && ps[j] == found.value;
      assert !(i < j) && !(j < i);
    }
  }

  lemma {:induction false} ReplayMeaning(db: Db, w: PlanWrites)
    requires PlanTable(db.plans) && w.plan.task in db.tasks && w.completion.Some?
    requires db.tasks[w.plan.task].activePlan != w.plan.predecessor
    ensures PlanReplay(db, w) == AlreadyDone <==>
            && db.tasks[w.plan.task].activePlan == Some(w.plan.version)
            && (exists p :: p in db.plans && PlanRepeats(p, w.plan))
            && w.plan.attempt in db.attempts && PlanResult(db.attempts[w.plan.attempt], w.completion.value)
    ensures PlanReplay(db, w).Refuse? && PlanReplay(db, w).error.Conflict? ==>
              PlanConflict(PlanReplay(db, w).error.code, db, w, 0)
    ensures PlanReplay(db, w).Refuse? ==> PlanReplay(db, w).error.Conflict?
  {
    hide PlanTable, FindPlan;
    var found := FindPlan(db.plans, w.plan.task, w.plan.version);
    if found.Some? {
      PlanUnique(db.plans, found.value, w.plan.task, w.plan.version);
    }
    forall p | p in db.plans && PlanRepeats(p, w.plan)
      ensures found == Some(p)
    {
      PlanUnique(db.plans, p, w.plan.task, w.plan.version);
    }
  }

  lemma {:induction false} MadeMeaning(db: Db, w: PlanWrites)
    requires PlanWellFormed(w) && w.plan.task in db.tasks && db.tasks[w.plan.task].input == w.plan.input
    ensures var a, c := PlanAttempt(db, w), w.completion.value;
            Made(db, w) <==>
              && PlanAttemptRunning(a, w.plan.task, db.tasks[w.plan.task].input, w.plan.agent, c.rowVersion)
              && !((a.value.createdAt.Some? && c.endedAt < a.value.createdAt.value)
                   || (a.value.startedAt.Some? && c.endedAt < a.value.startedAt.value))
  {
    hide HasEvent, OfVersion, OnePerItem, ItemSet;
  }

  lemma {:induction false} RestsMeaning(db: Db, w: PlanWrites)
    requires PlanWellFormed(w) && w.plan.task in db.tasks && GoalTable(db.goals)
    requires db.tasks[w.plan.task].input == w.plan.input
    ensures var goal := PlanGoal(db, w);
            (exists g :: RestsOn(db, w, g)) <==>
              && GoalReady(goal, w.plan.task, db.tasks[w.plan.task].input)
              && GoalAttemptDone(AttemptOf(db.attempts, goal.value.attempt), w.plan.task, db.tasks[w.plan.task].input)
  {
    hide GoalTable, PlanGoal, HasEvent, OfVersion, OnePerItem, ItemSet;
    var goal := PlanGoal(db, w);
    if goal.Some? {
      PlanGoalMeaning(db, w, goal.value);
    }
    forall g | RestsOn(db, w, g)
      ensures goal == Some(g)
    {
      PlanGoalMeaning(db, w, g);
    }
    assert goal.Some? && GoalReady(goal, w.plan.task, w.plan.input)
           && GoalAttemptDone(AttemptOf(db.attempts, goal.value.attempt), w.plan.task, w.plan.input) ==>
             RestsOn(db, w, goal.value);
  }

  lemma {:induction false} FenceConflict(db: Db, w: PlanWrites, now: int)
    requires PlanWellFormed(w) && w.plan.task in db.tasks && GoalTable(db.goals)
    ensures PlanFence(db, w).Some? ==>
              match PlanFence(db, w).value
              case Conflict(code) => PlanConflict(code, db, w, now)
              case ContractViolated(code) =>
                || (code == "PLAN_REPLAN_ACTIVATION_NOT_IMPLEMENTED"
                    && (w.plan.predecessor.Some? || w.plan.version != 1))
                || (code == "PLAN_INITIAL_REVISION_REASON_INVALID" && w.plan.reason != "NEW_TASK")
                || (code == "PLAN_ACTIVATION_EVENT_REQUIRED" && !HasKind(w.events, "PLAN_ACTIVATED"))
                || (code == "PLAN_ACTIVATION_OUTBOX_REQUIRED" && w.messages == [])
              case _ => false
  {
    CompletionOf(w);
    hide PlanWellFormed, GoalTable, PlanGoal, PlanAttempt, HasKind, RestsOn, Made, PlanResult;
    if db.tasks[w.plan.task].input == w.plan.input {
      MadeMeaning(db, w);
      RestsMeaning(db, w);
    }
    hide GoalReady, GoalAttemptDone, PlanAttemptRunning;
  }

  /** Every answer to an activation: the code of a refusal is true of the write set or of the rows, and a replay is
      told so exactly when the very plan is active and its attempt ended with the same result. */
  lemma {:induction false} PlanAnswers(db: Db, w: PlanWrites, now: int)
    requires GoalTable(db.goals) && PlanTable(db.plans)
    ensures PlanContract(w).Some? ==>
              PlanDecision(db, w, now) == Refuse(ContractViolated(PlanContract(w).value))
              && PlanFault(PlanContract(w).value, w)
    ensures PlanWellFormed(w) && w.plan.task !in db.tasks ==> PlanDecision(db, w, now) == Refuse(TaskNotFound)
    ensures PlanWellFormed(w) && w.plan.task in db.tasks ==>
              match PlanDecision(db, w, now)
              case Refuse(Conflict(code)) => w.completion.Some? && PlanConflict(code, db, w, now)
              case Refuse(IntegrityViolated) => !PlanInsertable(db, w)
              case AlreadyDone =>
                && db.tasks[w.plan.task].activePlan == Some(w.plan.version) && w.completion.Some?
                && (exists p :: p in db.plans && PlanRepeats(p, w.plan))
                && w.plan.attempt in db.attempts && PlanResult(db.attempts[w.plan.attempt], w.completion.value)
              case _ => true
  {
    PlanContractMeaning(w);
    PlanFaultIsTrue(w);
    if PlanWellFormed(w) && w.plan.task in db.tasks {
      CompletionOf(w);
      FenceConflict(db, w, now);
      FenceInput(db, w);
      if db.tasks[w.plan.task].activePlan != w.plan.predecessor {
        ReplayMeaning(db, w);
        ConflictAnyTime(db, w, now);
      }
    }
    hide PlanWellFormed, PlanContract, PlanFault, PlanFence, PlanReplay, PlanInsertable, GoalTable, PlanTable,
      PlanResult;
  }

  lemma {:induction false} FenceInput(db: Db, w: PlanWrites)
    requires w.plan.task in db.tasks && w.completion.Some?
    ensures PlanFence(db, w).None? ==>
              db.tasks[w.plan.task].status == Planning && db.tasks[w.plan.task].input == w.plan.input
  {
  }

  lemma {:induction false} ConflictAnyTime(db: Db, w: PlanWrites, now: int)
    requires w.plan.task in db.tasks && w.completion.Some?
    ensures forall code | code in {"PLAN_ACTIVATION_PREDECESSOR_CONFLICT", "PLAN_ATTEMPT_TERMINAL_STATE_CONFLICT"} ::
              PlanConflict(code, db, w, 0) ==> PlanConflict(code, db, w, now)
  {
  }

  /** What an activation leaves: the plan active in a running task, its rows, and its attempt completed with
      the result handed in. */
  lemma {:induction false} PlanLeavesBehind(db: Db, w: PlanWrites, now: int)
    requires Commits(db, Activation(w, now))
    ensures var next := Next(db, Activation(w, now));
            && OnlyTask(db, next, w.plan.task)
            && next.tasks[w.plan.task].status == Running && next.tasks[w.plan.task].activePlan == Some(w.plan.version)
            && next.tasks[w.plan.task].version == db.tasks[w.plan.task].version
            && next.plans == db.plans + [w.plan] && next.requests == db.requests
            && next.goals == db.goals + (if w.goal.Some? then [w.goal.value] else [])
            && next.definitions == db.definitions + w.items + w.others && next.runtime == db.runtime + w.runtime
            && next.attempts.Keys == db.attempts.Keys + {w.plan.attempt}
            && (forall a :: a in db.attempts && a != w.plan.attempt ==> next.attempts[a] == db.attempts[a])
            && w.completion.Some?
            && (var a, c := next.attempts[w.plan.attempt], w.completion.value;
                && a.status == "COMPLETED" && a.resultKind == Some("SUCCEEDED") && a.resultDigest == Some(c.digest)
                && a.resultSchema == Some("attempt_completed_v1") && a.endedAt == Some(c.endedAt)
                && a.rowVersion == c.rowVersion + 1 && a.task == w.plan.task && a.agent == w.plan.agent)
  {
    PlanCommits(db, w, now);
    PlanFenced(db, w);
    PlanContractMeaning(w);
    TaskStore.AttemptGiven(db, w);
    assert w.attempt.Some? ==> w.attempt.value.id == w.plan.attempt;
    PlanAttemptKnown(db, w);
    hide PlanDecision, PlanContract, PlanFence, PlanInsertable, GoalReady, PlanGoal, PlanEvents, StampedAll, OfVersion;
    hide OnePerItem, ItemSet, HasEvent;
  }

  lemma {:induction false} PlanAttemptKnown(db: Db, w: PlanWrites)
    requires PlanAttempt(db, w).Some?
    ensures w.attempt.None? ==> w.plan.attempt in db.attempts
  {
  }

  ghost predicate Planned(db: Db, t: nat) {
    t in db.tasks && db.tasks[t].activePlan.Some?
  }

  lemma {:induction false} PlannedRefuses(db: Db, s: Step, t: nat)
    requires Planned(db, t) && GoalOrPlanOf(s, t)
    ensures !Commits(db, s)
  {
    hide GoalWellFormed, GoalInsertable, GoalDecision, PlanDecision, PlanFence, GoalFence;
    match s {
      case GoalDone(w, now) => GoalCommitsExactlyWhen(db, w, now);
      case Activation(w, now) =>
        if PlanDecision(db, w, now).Commit? {
          PlanCommits(db, w, now);
          PlanFenced(db, w);
        }
    }
  }

  lemma {:induction false} PlannedOn(db: Db, s: Step, t: nat)
    requires Planned(db, t) && Legal(db, s)
    ensures Planned(Next(db, s), t)
  {
    hide GoalDecision, PlanDecision, GoalContract, GoalInsertable, PlanFence, Rounds;
    hide CreateContract, CancelContract, EventTable, MessageTable, RequestTable;
    if Commits(db, s) {
      match s
      case GoalDone(w, now) => GoalCommits(db, w, now);
      case Activation(w, now) =>
        PlanCommits(db, w, now);
        TaskStore.AttemptGiven(db, w);
      case Others(next) => assert TaskMay(db.tasks[t], next.tasks[t]);
      case _ =>
    }
  }

  /** Once a plan is active, no goal and no other plan of that task commits in any later run. */
  lemma {:induction false} PlanEndsPlanning(db: Db, steps: seq<Step>, t: nat)
    requires Planned(db, t) && LegalRun(db, steps)
    ensures Planned(Run(db, steps), t) && Refused(db, steps, t)
  {
    if steps != [] {
      RunUnfold(db, steps);
      var before, s := steps[..|steps| - 1], steps[|steps| - 1];
      hide *;
      PlanEndsPlanning(db, before, t);
      PlannedOn(Run(db, before), s, t);
      if GoalOrPlanOf(s, t) {
        PlannedRefuses(Run(db, before), s, t);
      }
      RefusedSnoc(db, steps, t);
    }
  }

  /** What is left to ask of a plan right after a goal that is ready. */
  ghost predicate PlanOnGoal(db: Db, w: PlanWrites, g: Goal, now: int)
    requires w.completion.Some? && g.task in db.tasks
  {
    && w.plan.task == g.task && w.plan.input == g.input && w.plan.goal == g.id && w.goal.None?
    && now < db.tasks[g.task].deadline
    && w.plan.predecessor.None? && w.plan.version == 1 && w.plan.reason == "NEW_TASK"
    && Made(db, w)
    && (exists i :: 0 <= i < |w.events| && w.events[i].kind == "PLAN_ACTIVATED") && w.messages != []
  }

  /** After a goal that is ready, its task is still planning, and a first plan made from that goal by a running
      attempt is activated before the deadline. */
  lemma {:induction false} ReadyCanActivate(db: Db, g: GoalWrites, now: int, w: PlanWrites, when: int)
    requires Commits(db, GoalDone(g, now)) && g.request.None? && GoalTable(db.goals)
    requires forall a :: a in db.attempts ==> db.attempts[a].id == a
    ensures Next(db, GoalDone(g, now)).tasks[g.goal.task].status == Planning
    ensures PlanWellFormed(w) && g.goal.task in db.tasks && PlanOnGoal(Next(db, GoalDone(g, now)), w, g.goal, when)
            && PlanInsertable(Next(db, GoalDone(g, now)), w)
            ==> Commits(Next(db, GoalDone(g, now)), Activation(w, when))
  {
    GoalLeavesBehind(db, g, now);
    GoalCommitsExactlyWhen(db, g, now);
    GoalCommits(db, g, now);
    var next := Next(db, GoalDone(g, now));
    assert next.goals[|db.goals|] == g.goal;
    InsertedGoals(db, g);
    PlanCommitsExactlyWhen(next, w, when);
    hide GoalDecision, GoalContract, GoalFence, GoalInsertable, PlanDecision, PlanInsertable, GoalTable, Next, Notices;
    hide OfVersion, OnePerItem, ItemSet, HasEvent;
    if PlanWellFormed(w) && PlanOnGoal(next, w, g.goal, when) {
      assert RestsOn(next, w, g.goal);
    }
  }

  lemma {:induction false} InsertedGoals(db: Db, g: GoalWrites)
    requires g.goal.task in db.tasks && GoalInsertable(db, g)
    ensures GoalTable(db.goals + [g.goal])
  {
  }

  // Creation and cancellation.

  /** A task is created exactly from a queued write set of its own whose rows pass the constraints. */
  lemma {:induction false} CreateCommitsExactlyWhen(db: Db, w: CreateWrites)
    ensures Commits(db, Creation(w)) <==>
            && w.status == Queued && w.lastSequence == 0 && w.event.task == w.id && w.event.sequence == 1
            && w.initialInput == w.input && w.currentInput == w.input && w.message.event == w.event.id
            && w.id !in db.tasks
            && EventTable(db.events + [w.event]) && MessageTable(db.messages + [w.message], db.events + [w.event])
    ensures Commits(db, Creation(w)) ==>
              var next := Next(db, Creation(w));
              && next == db.(tasks := next.tasks, events := db.events + [w.event],
                             messages := db.messages + [w.message])
              && next.tasks.Keys == db.tasks.Keys + {w.id}
              && (forall t :: t in db.tasks ==> next.tasks[t] == db.tasks[t])
              && next.tasks[w.id] == Task(Queued, None, w.input, 1, w.deadline, 1)
  {
    hide EventTable, MessageTable;
  }

  /** What the state of a task makes of a well-formed cancellation, and what a committed one leaves. */
  lemma {:induction false} CancelAnswers(db: Db, w: CancelWrites)
    requires w.task in db.tasks && CancelContract(w).None?
    ensures var d, s := CancelDecision(db, w), db.tasks[w.task].status;
            && (d == AlreadyDone <==> s == CancelRequested || s == Cancelled)
            && (d == Refuse(Conflict("TASK_CANCEL_TERMINAL")) <==> s == Completed || s == Failed)
    ensures CancelDecision(db, w).Commit? ==>
              var next := Next(db, Cancellation(w));
              && OnlyTask(db, next, w.task)
              && next == db.(tasks := next.tasks, events := next.events, messages := next.messages)
              && next.tasks[w.task] ==
                 db.tasks[w.task].(status := CancelRequested, lastSequence := db.tasks[w.task].lastSequence + 1)
              && |next.events| == |db.events| + 1 && next.events[|db.events|].task == w.task
              && next.events[|db.events|].kind == "TASK_CANCELLED" && next.events[|db.events|].id == w.event.id
              && |next.messages| == |db.messages| + 1 && next.messages[|db.messages|].event == w.event.id
              && next.messages[|db.messages|].destination == "TEMPORAL_SIGNAL"
  {
    hide CancelInsertable;
  }

  /** The relations that a cancellation write set has to keep. */
  lemma {:induction false} CancelContractMeaning(w: CancelWrites)
    ensures CancelContract(w).None? <==>
            && w.event.task == w.task && w.event.kind == "TASK_CANCELLED"
            && w.message.event == w.event.id && w.message.destination == "TEMPORAL_SIGNAL"
            && w.audit.resourceType == "TASK" && w.audit.resource == w.task && w.audit.outcome == "SUCCESS"
  {
  }

  // The tables.

  ghost predicate EventRows(es: seq<Event>) {
    && (forall i :: 0 <= i < |es| ==>
          && es[i].sequence >= 1
          && (es[i].refType.Some? <==> es[i].refId.Some?) && (es[i].refId.Some? <==> es[i].businessVersion.Some?)
          && (es[i].businessVersion.Some? ==> es[i].businessVersion.value >= 1))
    && (forall i, j :: 0 <= i < j < |es| ==>
          && es[i].id != es[j].id
          && (es[i].task == es[j].task ==> es[i].sequence != es[j].sequence)
          && !(es[i].task == es[j].task && es[i].refId.Some? && es[i].refType == es[j].refType
               && es[i].refId == es[j].refId && es[i].businessVersion == es[j].businessVersion))
  }

  ghost predicate MessageRows(ms: seq<Message>, es: seq<Event>) {
    && (forall m :: 0 <= m < |ms| ==> ms[m].version >= 1 && exists i :: 0 <= i < |es| && es[i].id == ms[m].event)
    && (forall m, n :: 0 <= m < n < |ms| && ms[m].event == ms[n].event ==> ms[m].destination != ms[n].destination)
  }

  ghost predicate GoalRows(gs: seq<Goal>) {
    forall i, j :: 0 <= i < j < |gs| ==>
      && gs[i].id != gs[j].id
      && (gs[i].task != gs[j].task || gs[i].input != gs[j].input || gs[i].attempt != gs[j].attempt)
  }

  ghost predicate RequestRows(rs: seq<Request>) {
    && (forall i :: 0 <= i < |rs| ==>
          && rs[i].requestedAt < rs[i].expiresAt
          && (rs[i].origin == "GOAL_CLARIFICATION" ==>
                rs[i].goal.Some? && rs[i].round.Some? && 1 <= rs[i].round.value <= 2))
    && (forall i, j :: 0 <= i < j < |rs| ==>
          && rs[i].id != rs[j].id
          && (rs[i].task == rs[j].task && rs[i].status == "PENDING" ==> rs[j].status != "PENDING")
          && (rs[i].task == rs[j].task && rs[i].input == rs[j].input && rs[i].round.Some? ==>
                rs[i].round != rs[j].round))
  }

  ghost predicate PlanRows(ps: seq<Plan>) {
    && (forall i :: 0 <= i < |ps| ==>
          && ps[i].version >= 1
          && (ps[i].predecessor.Some? ==> 1 <= ps[i].predecessor.value < ps[i].version)
          && (ps[i].status == "ACTIVE" ==> ps[i].activatedAt.Some? && ps[i].completedAt.None?))
    && (forall i, j :: 0 <= i < j < |ps| && ps[i].task == ps[j].task ==>
          ps[i].version != ps[j].version && (ps[i].status == "ACTIVE" ==> ps[j].status != "ACTIVE"))
  }

  lemma {:induction false} EventRowsKept(es: seq<Event>, ms: seq<Message>)
    ensures EventTable(es) <==> EventRows(es)
    ensures MessageTable(ms, es) <==> MessageRows(ms, es)
  {
  }

  lemma {:induction false} GoalRowsKept(gs: seq<Goal>, ps: seq<Plan>)
    ensures GoalTable(gs) <==> GoalRows(gs)
    ensures PlanTable(ps) <==> PlanRows(ps)
  {
  }

  lemma {:induction false} RequestRowsKept(rs: seq<Request>)
    ensures RequestTable(rs) <==> RequestRows(rs)
  {
  }

  /** A new attempt: under an id of its own, at a positive row version, and without a plan version exactly when it
      is about the goal. */
  predicate NewAttempt(db: Db, a: Attempt) {
    a.id !in db.attempts && 1 <= a.rowVersion && (a.planVersion.None? <==> a.kind == "GOAL_UNDERSTANDING")
  }

  /** The constraints that a goal's and a plan's rows have to pass, row by row. */
  lemma {:induction false} InsertableMeaning(db: Db, g: GoalWrites, p: PlanWrites)
    requires g.goal.task in db.tasks && p.plan.task in db.tasks
    ensures GoalInsertable(db, g) <==>
            && (g.attempt.Some? ==> NewAttempt(db, g.attempt.value))
            && GoalRows(db.goals + [g.goal])
            && RequestRows(db.requests + (if g.request.Some? then [g.request.value] else []))
            && EventRows(db.events + GoalEvents(db, g))
            && MessageRows(db.messages + g.messages, db.events + GoalEvents(db, g))
    ensures PlanInsertable(db, p) <==>
            && (p.attempt.Some? ==> NewAttempt(db, p.attempt.value))
            && GoalRows(db.goals + (if p.goal.Some? then [p.goal.value] else []))
            && PlanRows(db.plans + [p.plan])
            && EventRows(db.events + PlanEvents(db, p))
            && MessageRows(db.messages + StampedAll(p.messages, PlanEvents(db, p)), db.events + PlanEvents(db, p))
  {
    hide EventTable, MessageTable, GoalTable, PlanTable, RequestTable;
    hide EventRows, MessageRows, GoalRows, PlanRows, RequestRows;
    EventRowsKept(db.events + GoalEvents(db, g), db.messages + g.messages);
    EventRowsKept(db.events + PlanEvents(db, p), db.messages + StampedAll(p.messages, PlanEvents(db, p)));
    GoalRowsKept(db.goals + [g.goal], db.plans + [p.plan]);
    GoalRowsKept(db.goals + GivenGoal(p), db.plans + [p.plan]);
    RequestRowsKept(db.requests + Asked(g));
  }

  /** In every reachable state: no two events of a task share a sequence or a version of one reference; every
      message is about an event, once per destination; a task has one goal per input and attempt, one pending
      question, and one question per round of an input. */
  lemma {:induction false} ReachableRows(steps: seq<Step>)
    requires LegalRun(EMPTY, steps)
    ensures var db := Run(EMPTY, steps);
            && EventRows(db.events) && MessageRows(db.messages, db.events) && GoalRows(db.goals)
            && RequestRows(db.requests) && PlanRows(db.plans)
  {
    EmptyInv();
    hide *;
    RunKeeps(EMPTY, steps);
    var db := Run(EMPTY, steps);
    InvParts(db);
    TableParts(db);
    EventRowsKept(db.events, db.messages);
    GoalRowsKept(db.goals, db.plans);
    RequestRowsKept(db.requests);
  }

  lemma {:induction false} TableParts(db: Db)
    requires TablesKept(db)
    ensures EventTable(db.events) && MessageTable(db.messages, db.events) && GoalTable(db.goals)
    ensures PlanTable(db.plans) && RequestTable(db.requests)
  {
  }
}
