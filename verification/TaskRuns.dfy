/** Runs of task transactions, and what every run keeps: gapless events, one plan per task, and bounded
    clarifications. */
module TaskRuns {
  import opened Seqs
  import opened TaskModel
  import opened TaskStatus
  import opened GoalCompletion
  import opened PlanActivation
  import opened TaskLifecycle
  import TaskStore

  /** One transaction; `Others` is any transaction of the rest of the system. */
  datatype Step =
    | Creation(create: CreateWrites)
    | GoalDone(goal: GoalWrites, now: int)
    | Activation(plan: PlanWrites, now: int)
    | Cancellation(cancel: CancelWrites)
    | Others(next: Db)

  predicate Commits(db: Db, s: Step) {
    match s
    case Creation(w) => CreateDecision(db, w).Commit?
    case GoalDone(w, now) => GoalDecision(db, w, now).Commit?
    case Activation(w, now) => PlanDecision(db, w, now).Commit?
    case Cancellation(w) => CancelDecision(db, w).Commit?
    case Others(_) => true
  }

  function Next(db: Db, s: Step): Db {
    if !Commits(db, s) then db
    else
      match s
      case Creation(w) => CreateCommit(db, w)
      case GoalDone(w, _) => GoalCommit(db, w)
      case Activation(w, _) =>
        TaskStore.CompletionGiven(w);
        TaskStore.AttemptGiven(db, w);
        PlanCommit(db, w)
      case Cancellation(w) => CancelCommit(db, w)
      case Others(next) => next
  }

  function Run(db: Db, steps: seq<Step>): Db {
    if steps == [] then db else Next(Run(db, steps[..|steps| - 1]), steps[|steps| - 1])
  }

  // The rest of the system.

  /** Others move a task among open states, end it, or end it after a cancellation request; they never
      ask for cancellation, and leave the event counter and the active plan alone. */
  predicate TaskMay(before: Task, after: Task) {
    && after.lastSequence == before.lastSequence && after.activePlan == before.activePlan
    && (after.status == before.status
        || (!IsTerminal(before.status) && IsTerminal(after.status))
        || (!Closed(before.status) && !Closed(after.status)))
  }

  /** A completed attempt is final; any other may move, but not to another task or kind. */
  predicate AttemptMay(before: Attempt, after: Attempt) {
    && (before.status == "COMPLETED" ==> after == before)
    && after.id == before.id && after.task == before.task && after.kind == before.kind
       && after.planVersion == before.planVersion
  }

  /** Others may start attempts and ask or settle requests, but ask no goal clarification and write no
      goal, plan, event or message. */
  ghost predicate OthersMay(db: Db, next: Db) {
    && next.events == db.events && next.messages == db.messages && next.goals == db.goals && next.plans == db.plans
    && next.definitions == db.definitions && next.runtime == db.runtime
    && next.tasks.Keys == db.tasks.Keys
    && (forall t :: t in db.tasks ==> TaskMay(db.tasks[t], next.tasks[t]))
    && (forall a :: a in db.attempts ==> a in next.attempts && AttemptMay(db.attempts[a], next.attempts[a]))
    && (forall a :: a in next.attempts ==> next.attempts[a].id == a)
    && (forall t :: Rounds(next.requests, t) == Rounds(db.requests, t)) && RequestTable(next.requests)
  }

  ghost predicate Legal(db: Db, s: Step) {
    s.Others? ==> OthersMay(db, s.next)
  }

  ghost predicate LegalRun(db: Db, steps: seq<Step>)
    decreases |steps|
  {
    steps != [] ==> LegalRun(db, steps[..|steps| - 1]) && Legal(Run(db, steps[..|steps| - 1]), steps[|steps| - 1])
  }

  // What a commit knows.

  lemma {:induction false} GoalCommits(db: Db, w: GoalWrites, now: int)
    requires GoalDecision(db, w, now).Commit?
    ensures GoalContract(w).None? && w.goal.task in db.tasks
    ensures FindGoal(db.goals, w.goal.task, w.goal.input, w.goal.attempt).None? && GoalById(db.goals, w.goal.id).None?
    ensures GoalFence(db, w).None? && GoalInsertable(db, w) && now < db.tasks[w.goal.task].deadline
  {
    hide GoalContract, GoalFence, GoalInsertable, FindGoal, GoalById;
  }

  lemma {:induction false} GoalFenced(db: Db, w: GoalWrites)
    requires w.goal.task in db.tasks && GoalFence(db, w).None?
    ensures var t := db.tasks[w.goal.task];
            && t.status == Planning && t.activePlan.None? && t.input == w.goal.input && t.version == w.expectedVersion
            && GoalAttemptReady(w.goal, if w.attempt.Some? then w.attempt else AttemptOf(db.attempts, w.goal.attempt))
            && (w.request.Some? ==>
                  |Rounds(db.requests, w.goal.task)| < 2
                    && w.request.value.round == Some(|Rounds(db.requests, w.goal.task)| + 1))
  {
    hide Rounds, GoalAttemptReady, AttemptOf;
  }

  lemma {:induction false} GoalContracted(w: GoalWrites)
    requires GoalContract(w).None?
    ensures forall i :: 0 <= i < |w.events| ==> w.events[i].task == w.goal.task
    ensures w.attempt.Some? ==> w.attempt.value.id == w.goal.attempt
    ensures w.request.Some? <==> w.goal.outcome == "REQUEST_USER_INPUT"
    ensures w.request.Some? ==> w.request.value.task == w.goal.task && w.request.value.origin == "GOAL_CLARIFICATION"
  {
    hide DistinctIds, HasKind, HasEvent, DistinctTargets;
  }

  lemma {:induction false} PlanCommits(db: Db, w: PlanWrites, now: int)
    requires PlanDecision(db, w, now).Commit?
    ensures PlanContract(w).None? && w.plan.task in db.tasks && db.tasks[w.plan.task].activePlan == w.plan.predecessor
    ensures w.completion.Some? && w.completion.value.attempt == w.plan.attempt
    ensures w.attempt.Some? ==> w.attempt.value.id == w.plan.attempt
    ensures PlanFence(db, w).None? && PlanInsertable(db, w) && now < db.tasks[w.plan.task].deadline
  {
    hide PlanContract, PlanFence, PlanInsertable, PlanReplay;
    if PlanContract(w).None? {
      TaskStore.CompletionGiven(w);
    }
  }

  lemma {:induction false} PlanFenced(db: Db, w: PlanWrites)
    requires w.plan.task in db.tasks && w.completion.Some? && PlanFence(db, w).None?
    ensures var t := db.tasks[w.plan.task];
            && t.status == Planning && t.input == w.plan.input && w.plan.predecessor.None? && w.plan.version == 1
            && GoalReady(PlanGoal(db, w), w.plan.task, t.input)
            && PlanAttemptRunning(PlanAttempt(db, w), w.plan.task, t.input, w.plan.agent, w.completion.value.rowVersion)
  {
    hide GoalReady, GoalAttemptDone, PlanAttemptRunning, PlanGoal, PlanAttempt, AttemptOf;
  }

  lemma {:induction false} PlanContracted(w: PlanWrites)
    requires PlanContract(w).None?
    ensures forall i :: 0 <= i < |w.events| ==> w.events[i].task == w.plan.task
    ensures w.plan.status == "ACTIVE"
    ensures w.goal.Some? ==> w.goal.value.id == w.plan.goal
  {
    hide CompletionContract, DistinctIds, HasEvent, DistinctTargets, ChildrenContract;
  }

  // Gapless events.

  lemma {:induction false} EventsOfAppend(a: seq<Event>, b: seq<Event>, t: nat)
    ensures EventsOf(a + b, t) == EventsOf(a, t) + EventsOf(b, t)
  {
    if b == [] {
      assert a + b == a;
    } else {
      SnocConcat(a, b);
      assert (a + b)[..|a + b| - 1] == a + b[..|b| - 1];
      EventsOfAppend(a, b[..|b| - 1], t);
    }
  }

  lemma {:induction false} EventsOfOne(es: seq<Event>, owner: nat, t: nat)
    requires forall i :: 0 <= i < |es| ==> es[i].task == owner
    ensures EventsOf(es, t) == if t == owner then es else []
  {
    if es != [] {
      EventsOfOne(es[..|es| - 1], owner, t);
      SnocConcat([], es);
    }
  }

  /** The events of task `t` carry the sequences 1, 2, ... up to the task's counter. */
  ghost predicate Gapless(db: Db, t: nat)
    requires t in db.tasks
  {
    var es := EventsOf(db.events, t);
    |es| == db.tasks[t].lastSequence && forall i :: 0 <= i < |es| ==> es[i].sequence == i + 1
  }

  ghost predicate EventsKept(db: Db) {
    && (forall t :: t in db.tasks ==> Gapless(db, t))
    && (forall i :: 0 <= i < |db.events| ==> db.events[i].task in db.tasks)
  }

  /** A transaction wrote `added`, numbered on from the counter of its task. */
  ghost predicate Wrote(db: Db, next: Db, owner: nat, added: seq<Event>, last: nat) {
    && next.events == db.events + added
    && owner in next.tasks && next.tasks.Keys == db.tasks.Keys + {owner}
    && next.tasks[owner].lastSequence == last + |added|
    && (forall t :: t in db.tasks && t != owner ==> next.tasks[t].lastSequence == db.tasks[t].lastSequence)
    && (forall i :: 0 <= i < |added| ==> added[i].task == owner && added[i].sequence == last + 1 + i)
    && (if owner in db.tasks then last == db.tasks[owner].lastSequence else last == 0)
  }

  lemma {:induction false} NoEventsOf(es: seq<Event>, t: nat)
    requires forall i :: 0 <= i < |es| ==> es[i].task != t
    ensures EventsOf(es, t) == []
  {
    if es != [] {
      NoEventsOf(es[..|es| - 1], t);
    }
  }

  lemma {:induction false} WroteKeeps(db: Db, next: Db, owner: nat, added: seq<Event>, last: nat)
    requires EventsKept(db) && Wrote(db, next, owner, added, last)
    ensures EventsKept(next)
  {
    hide EventsOf;
    forall t | t in next.tasks
      ensures Gapless(next, t)
    {
      EventsOfAppend(db.events, added, t);
      EventsOfOne(added, owner, t);
      if owner !in db.tasks {
        NoEventsOf(db.events, owner);
      }
      assert t in db.tasks ==> Gapless(db, t);
    }
  }

  lemma {:induction false} GoalWrote(db: Db, w: GoalWrites, now: int)
    requires GoalDecision(db, w, now).Commit?
    ensures Wrote(db, GoalCommit(db, w), w.goal.task, GoalEvents(db, w), db.tasks[w.goal.task].lastSequence)
  {
    hide GoalDecision;
    GoalCommits(db, w, now);
    GoalContracted(w);
  }

  lemma {:induction false} PlanWrote(db: Db, w: PlanWrites, now: int)
    requires PlanDecision(db, w, now).Commit?
    ensures w.plan.task in db.tasks && w.completion.Some? && PlanAttempt(db, w).Some?
    ensures Wrote(db, PlanCommit(db, w), w.plan.task, PlanEvents(db, w), db.tasks[w.plan.task].lastSequence)
  {
    hide PlanDecision, PlanContract;
    PlanCommits(db, w, now);
    PlanContracted(w);
    TaskStore.AttemptGiven(db, w);
  }

  lemma {:induction false} NextKeepsEvents(db: Db, s: Step)
    requires EventsKept(db) && Legal(db, s)
    ensures EventsKept(Next(db, s))
  {
    hide GoalDecision, PlanDecision, PlanContract, GoalContract, EventsKept, Wrote, GoalInsertable, PlanInsertable,
      PlanFence, GoalFence, PlanAttempt;
    if Commits(db, s) {
      match s
      case Creation(w) =>
        CreationWrote(db, w);
        WroteKeeps(db, Next(db, s), w.id, [w.event], 0);
      case GoalDone(w, now) =>
        GoalCommits(db, w, now);
        GoalWrote(db, w, now);
        WroteKeeps(db, Next(db, s), w.goal.task, GoalEvents(db, w), db.tasks[w.goal.task].lastSequence);
      case Activation(w, now) =>
        PlanWrote(db, w, now);
        WroteKeeps(db, Next(db, s), w.plan.task, PlanEvents(db, w), db.tasks[w.plan.task].lastSequence);
      case Cancellation(w) =>
        CancellationWrote(db, w);
        WroteKeeps(db, Next(db, s), w.task, [CancelEvent(db, w)], db.tasks[w.task].lastSequence);
      case Others(next) =>
        OthersKeepEvents(db, next);
    }
  }

  lemma {:induction false} CreationWrote(db: Db, w: CreateWrites)
    requires CreateDecision(db, w).Commit?
    ensures Wrote(db, CreateCommit(db, w), w.id, [w.event], 0)
  {
  }

  lemma {:induction false} CancellationWrote(db: Db, w: CancelWrites)
    requires CancelDecision(db, w).Commit?
    ensures w.task in db.tasks
            && Wrote(db, CancelCommit(db, w), w.task, [CancelEvent(db, w)], db.tasks[w.task].lastSequence)
  {
  }

  lemma {:induction false} OthersKeepEvents(db: Db, next: Db)
    requires EventsKept(db) && OthersMay(db, next)
    ensures EventsKept(next)
  {
    hide EventsOf, AttemptMay, Rounds;
    forall t | t in next.tasks
      ensures Gapless(next, t)
    {
      assert t in db.tasks && Gapless(db, t) && TaskMay(db.tasks[t], next.tasks[t]);
    }
  }

  // One plan.

  ghost predicate GoalRecorded(gs: seq<Goal>, p: Plan) {
    exists i :: 0 <= i < |gs| && gs[i].id == p.goal && gs[i].task == p.task && gs[i].outcome == "READY_TO_PLAN"
  }

  /** The plan is its task's active plan, made by a completed PLAN attempt from a goal that was ready. */
  ghost predicate PlanSound(db: Db, p: Plan) {
    && p.task in db.tasks && db.tasks[p.task].activePlan == Some(p.version) && p.status == "ACTIVE"
    && p.attempt in db.attempts
    && (var a := db.attempts[p.attempt];
        a.task == p.task && a.kind == "PLAN" && a.planVersion == Some(p.version) && a.status == "COMPLETED")
    && GoalRecorded(db.goals, p)
  }

  ghost predicate PlansKept(db: Db) {
    && (forall i :: 0 <= i < |db.plans| ==> PlanSound(db, db.plans[i]))
    && (forall i, j :: 0 <= i < j < |db.plans| ==> db.plans[i].task != db.plans[j].task)
    && (forall t :: t in db.tasks && db.tasks[t].activePlan.Some? ==>
        exists i :: 0 <= i < |db.plans| && db.plans[i].task == t)
    && (forall a :: a in db.attempts ==> db.attempts[a].id == a)
  }

  /** Nothing was taken from a plan: its task keeps its active plan, its completed attempt and its goal. */
  ghost predicate Leaves(db: Db, next: Db) {
    && next.plans == db.plans && db.goals <= next.goals
    && (forall t :: t in db.tasks ==> t in next.tasks && next.tasks[t].activePlan == db.tasks[t].activePlan)
    && (forall t :: t in next.tasks && t !in db.tasks ==> next.tasks[t].activePlan.None?)
    && (forall a :: a in db.attempts && db.attempts[a].status == "COMPLETED" ==>
        a in next.attempts && next.attempts[a] == db.attempts[a])
    && (forall a :: a in next.attempts ==> next.attempts[a].id == a)
  }

  lemma {:induction false} GoalStaysRecorded(gs: seq<Goal>, more: seq<Goal>, p: Plan)
    requires GoalRecorded(gs, p) && gs <= more
    ensures GoalRecorded(more, p)
  {
    var i :| 0 <= i < |gs| && gs[i].id == p.goal && gs[i].task == p.task && gs[i].outcome == "READY_TO_PLAN";
    assert more[i] == gs[i];
  }

  lemma {:induction false} LeavesKeeps(db: Db, next: Db)
    requires PlansKept(db) && Leaves(db, next)
    ensures PlansKept(next)
  {
    hide GoalRecorded;
    forall i | 0 <= i < |next.plans|
      ensures PlanSound(next, next.plans[i])
    {
      assert PlanSound(db, db.plans[i]);
      GoalStaysRecorded(db.goals, next.goals, db.plans[i]);
    }
  }

  lemma {:induction false} GoalLeaves(db: Db, w: GoalWrites, now: int)
    requires GoalDecision(db, w, now).Commit? && PlansKept(db)
    ensures Leaves(db, GoalCommit(db, w))
  {
    hide GoalDecision, GoalContract, GoalFence, EventTable, MessageTable, RequestTable, GoalTable, PlanSound,
      GoalRecorded;
    GoalCommits(db, w, now);
  }

  lemma {:induction false} OthersLeave(db: Db, next: Db)
    requires OthersMay(db, next) && PlansKept(db)
    ensures Leaves(db, next)
  {
    hide Rounds, PlanSound, GoalRecorded;
    forall t | t in db.tasks
      ensures t in next.tasks && next.tasks[t].activePlan == db.tasks[t].activePlan
    {
      assert TaskMay(db.tasks[t], next.tasks[t]);
    }
  }

  /** What an activation adds. */
  ghost predicate Activates(db: Db, next: Db, p: Plan) {
    && next.plans == db.plans + [p] && db.goals <= next.goals && PlanSound(next, p)
    && p.task in db.tasks && db.tasks[p.task].activePlan.None? && next.tasks.Keys == db.tasks.Keys
    && (forall t :: t in db.tasks && t != p.task ==> next.tasks[t] == db.tasks[t])
    && (forall a :: a in db.attempts && db.attempts[a].status == "COMPLETED" ==>
        a in next.attempts && next.attempts[a] == db.attempts[a])
    && (forall a :: a in next.attempts ==> next.attempts[a].id == a)
  }

  lemma {:induction false} PlanGoalRecorded(db: Db, w: PlanWrites, input: nat)
    requires PlanContract(w).None? && GoalReady(PlanGoal(db, w), w.plan.task, input)
    ensures GoalRecorded(db.goals + GivenGoal(w), w.plan)
  {
    PlanContracted(w);
    hide PlanContract, GoalById;
    var all := db.goals + GivenGoal(w);
    if w.goal.Some? {
      assert all[|db.goals|] == w.goal.value;
    } else {
      var g := GoalById(db.goals, w.plan.goal).value;
      assert g in db.goals;
      var i :| 0 <= i < |db.goals| && db.goals[i] == g;
      assert all[i] == g;
    }
  }

  lemma {:induction false} PlanActivates(db: Db, w: PlanWrites, now: int)
    requires PlanDecision(db, w, now).Commit? && PlansKept(db)
    ensures w.plan.task in db.tasks && w.completion.Some? && PlanAttempt(db, w).Some?
    ensures Activates(db, PlanCommit(db, w), w.plan)
  {
    hide PlanDecision, PlanContract, PlanFence, GoalRecorded, EventTable, MessageTable, PlanTable, GoalTable, PlanGoal;
    PlanCommits(db, w, now);
    PlanFenced(db, w);
    PlanContracted(w);
    PlanGoalRecorded(db, w, db.tasks[w.plan.task].input);
  }

  lemma {:induction false} ActivationKeeps(db: Db, next: Db, p: Plan)
    requires PlansKept(db) && Activates(db, next, p)
    ensures PlansKept(next)
  {
    hide GoalRecorded;
    forall i | 0 <= i < |db.plans|
      ensures PlanSound(next, db.plans[i]) && db.plans[i].task != p.task
    {
      assert PlanSound(db, db.plans[i]);
      GoalStaysRecorded(db.goals, next.goals, db.plans[i]);
    }
    forall t | t in next.tasks && next.tasks[t].activePlan.Some?
      ensures exists i :: 0 <= i < |next.plans| && next.plans[i].task == t
    {
      if t == p.task {
        assert next.plans[|db.plans|].task == t;
      } else {
        var i :| 0 <= i < |db.plans| && db.plans[i].task == t;
        assert next.plans[i].task == t;
      }
    }
  }

  lemma {:induction false} NextKeepsPlans(db: Db, s: Step)
    requires PlansKept(db) && Legal(db, s)
    ensures PlansKept(Next(db, s))
  {
    hide GoalDecision, PlanDecision, PlansKept, Leaves, Activates, GoalCommit, PlanCommit, OthersMay;
    if Commits(db, s) {
      match s
      case Creation(w) =>
        CreationLeaves(db, w);
        LeavesKeeps(db, Next(db, s));
      case GoalDone(w, now) =>
        GoalCommits(db, w, now);
        GoalLeaves(db, w, now);
        LeavesKeeps(db, Next(db, s));
      case Activation(w, now) =>
        PlanActivates(db, w, now);
        ActivationKeeps(db, Next(db, s), w.plan);
      case Cancellation(w) =>
        CancellationLeaves(db, w);
        LeavesKeeps(db, Next(db, s));
      case Others(next) =>
        OthersLeave(db, next);
        LeavesKeeps(db, next);
    }
  }

  lemma {:induction false} CreationLeaves(db: Db, w: CreateWrites)
    requires CreateDecision(db, w).Commit? && PlansKept(db)
    ensures Leaves(db, CreateCommit(db, w))
  {
    hide EventTable, MessageTable, PlanSound;
  }

  lemma {:induction false} CancellationLeaves(db: Db, w: CancelWrites)
    requires CancelDecision(db, w).Commit? && PlansKept(db)
    ensures w.task in db.tasks && Leaves(db, CancelCommit(db, w))
  {
    hide EventTable, MessageTable, PlanSound;
  }

  // Clarification rounds and tables.

  /** A task's goal clarifications are numbered 1, 2, and there are no more. */
  ghost predicate RoundsKept(db: Db) {
    forall t :: RoundsInOrder(Rounds(db.requests, t))
  }

  predicate RoundsInOrder(rs: seq<nat>) {
    |rs| <= 2 && forall i :: 0 <= i < |rs| ==> rs[i] == i + 1
  }

  lemma {:induction false} RoundAsked(rs: seq<Request>, r: Request, t: nat)
    ensures Rounds(rs + [r], t) == Rounds(rs, t)
            + (if r.task == t && r.origin == "GOAL_CLARIFICATION" then [if r.round.Some? then r.round.value else 0]
               else [])
  {
    assert (rs + [r])[..|rs|] == rs;
  }

  lemma {:induction false} GoalKeepsRounds(db: Db, w: GoalWrites, now: int)
    requires GoalDecision(db, w, now).Commit? && RoundsKept(db)
    ensures w.goal.task in db.tasks && RoundsKept(GoalCommit(db, w))
  {
    hide GoalDecision, GoalContract, GoalFence, GoalInsertable, Rounds;
    GoalCommits(db, w, now);
    GoalFenced(db, w);
    GoalContracted(w);
    if w.request.Some? {
      forall t
        ensures RoundsInOrder(Rounds(db.requests + [w.request.value], t))
      {
        RoundAsked(db.requests, w.request.value, t);
        assert RoundsInOrder(Rounds(db.requests, t));
      }
    } else {
      assert db.requests + [] == db.requests;
    }
  }

  lemma {:induction false} NextKeepsRounds(db: Db, s: Step)
    requires RoundsKept(db) && Legal(db, s)
    ensures RoundsKept(Next(db, s))
  {
    hide GoalDecision, PlanDecision, GoalCommit, CreateDecision, CancelDecision, Rounds;
    if s.GoalDone? && Commits(db, s) {
      GoalCommits(db, s.goal, s.now);
      GoalKeepsRounds(db, s.goal, s.now);
    }
  }

  ghost predicate TablesKept(db: Db) {
    && GoalTable(db.goals) && PlanTable(db.plans) && RequestTable(db.requests)
    && EventTable(db.events) && MessageTable(db.messages, db.events)
  }

  lemma {:induction false} NextKeepsTables(db: Db, s: Step)
    requires TablesKept(db) && Legal(db, s)
    ensures TablesKept(Next(db, s))
  {
    hide GoalDecision, PlanDecision, PlanContract, GoalContract, PlanFence, GoalFence, Rounds;
    hide GoalTable, PlanTable, EventTable, MessageTable, RequestTable;
    if Commits(db, s) {
      match s
      case Creation(w) =>
      case GoalDone(w, now) => GoalCommits(db, w, now);
      case Activation(w, now) =>
        PlanCommits(db, w, now);
        TaskStore.AttemptGiven(db, w);
      case Cancellation(w) =>
      case Others(next) =>
    }
  }

  ghost predicate Inv(db: Db) {
    EventsKept(db) && PlansKept(db) && RoundsKept(db) && TablesKept(db)
  }

  lemma {:induction false} NextKeeps(db: Db, s: Step)
    requires Inv(db) && Legal(db, s)
    ensures Inv(Next(db, s))
  {
    hide *;
    InvParts(db);
    NextKeepsEvents(db, s);
    NextKeepsPlans(db, s);
    NextKeepsRounds(db, s);
    NextKeepsTables(db, s);
    InvWhole(Next(db, s));
  }

  lemma {:induction false} InvParts(db: Db)
    requires Inv(db)
    ensures EventsKept(db) && PlansKept(db) && RoundsKept(db) && TablesKept(db)
  {
  }

  lemma {:induction false} InvWhole(db: Db)
    requires EventsKept(db) && PlansKept(db) && RoundsKept(db) && TablesKept(db)
    ensures Inv(db)
  {
  }

  lemma {:induction false} RunUnfold(db: Db, steps: seq<Step>)
    requires LegalRun(db, steps) && steps != []
    ensures var init, s := steps[..|steps| - 1], steps[|steps| - 1];
            LegalRun(db, init) && Legal(Run(db, init), s) && Run(db, steps) == Next(Run(db, init), s)
  {
    hide Next, Legal;
  }

  lemma {:induction false} EmptyInv()
    ensures Inv(EMPTY)
  {
  }

  lemma {:induction false} RunKeeps(db: Db, steps: seq<Step>)
    requires Inv(db) && LegalRun(db, steps)
    ensures Inv(Run(db, steps))
  {
    if steps != [] {
      hide Inv, Next, Legal, Run, LegalRun;
      RunUnfold(db, steps);
      RunKeeps(db, steps[..|steps| - 1]);
      NextKeeps(Run(db, steps[..|steps| - 1]), steps[|steps| - 1]);
    }
  }

  /** In every reachable state: each task's events carry exactly the sequences 1 to its counter; a task
      has at most one plan, which is active, its task's active plan, and the work of a completed PLAN
      attempt on a goal that was ready; and its goal clarifications are numbered 1, 2 at most. */
  lemma {:induction false} Reachable(steps: seq<Step>)
    requires LegalRun(EMPTY, steps)
    ensures var db := Run(EMPTY, steps);
            && (forall t :: t in db.tasks ==> Gapless(db, t))
            && (forall i :: 0 <= i < |db.plans| ==> PlanSound(db, db.plans[i]))
            && (forall i, j :: 0 <= i < j < |db.plans| ==> db.plans[i].task != db.plans[j].task)
            && (forall t :: t in db.tasks && db.tasks[t].activePlan.Some? ==>
                exists i :: 0 <= i < |db.plans| && db.plans[i].task == t)
            && (forall t :: RoundsInOrder(Rounds(db.requests, t)))
  {
    hide Run, LegalRun, Gapless, PlanSound, Rounds, RoundsInOrder;
    EmptyInv();
    RunKeeps(EMPTY, steps);
  }
}
