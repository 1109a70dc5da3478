/** Write sets sent again, and how written events are numbered and stamped. */
module TaskReplays {
  import opened Seqs
  import opened TaskModel
  import opened TaskStatus
  import opened GoalCompletion
  import opened PlanActivation
  import opened TaskLifecycle
  import opened TaskRuns
  import TaskStore

  // Replays.

  lemma {:induction false} GoalFound(gs: seq<Goal>, g: Goal)
    requires GoalTable(gs) && g in gs
    ensures FindGoal(gs, g.task, g.input, g.attempt) == Some(g)
  {
    var f := FindGoal(gs, g.task, g.input, g.attempt);
    var i :| 0 <= i < |gs| && gs[i] == g;
    assert f.Some?;
    var j :| 0 <= j < |gs| && gs[j] == f.value;
    assert !(i < j) && !(j < i);
  }

  /** Goals, plans and events are only ever added to, and tasks are never removed. */
  ghost predicate Extends(db: Db, next: Db) {
    && db.goals <= next.goals && db.plans <= next.plans && db.events <= next.events && db.messages <= next.messages
    && db.tasks.Keys <= next.tasks.Keys
  }

  lemma {:induction false} NextExtends(db: Db, s: Step)
    requires Legal(db, s)
    ensures Extends(db, Next(db, s))
  {
    hide GoalDecision, PlanDecision, CreateDecision, CancelDecision, Rounds;
    if Commits(db, s) && s.GoalDone? {
      GoalCommits(db, s.goal, s.now);
    } else if Commits(db, s) && s.Activation? {
      PlanCommits(db, s.plan, s.now);
      TaskStore.AttemptGiven(db, s.plan);
    } else if Commits(db, s) && s.Cancellation? {
      CancellationWrote(db, s.cancel);
    }
  }

  lemma {:induction false} RunExtends(db: Db, steps: seq<Step>)
    requires LegalRun(db, steps)
    ensures Extends(db, Run(db, steps))
  {
    if steps != [] {
      hide Next, Legal;
      RunUnfold(db, steps);
      RunExtends(db, steps[..|steps| - 1]);
      NextExtends(Run(db, steps[..|steps| - 1]), steps[|steps| - 1]);
    }
  }

  lemma {:induction false} GoalStored(db: Db, w: GoalWrites, now: int, steps: seq<Step>)
    requires Inv(db) && GoalDecision(db, w, now).Commit?
    ensures w.goal.task in db.tasks
    requires LegalRun(Next(db, GoalDone(w, now)), steps)
    ensures var later := Run(Next(db, GoalDone(w, now)), steps);
            && w.goal.task in later.tasks
            && FindGoal(later.goals, w.goal.task, w.goal.input, w.goal.attempt) == Some(w.goal)
  {
    hide GoalDecision, Run, LegalRun, Inv;
    var s := GoalDone(w, now);
    var next := Next(db, s);
    GoalCommits(db, w, now);
    NextKeeps(db, s);
    RunKeeps(next, steps);
    RunExtends(next, steps);
    var later := Run(next, steps);
    InvParts(later);
    assert next.goals[|db.goals|] == w.goal && later.goals[|db.goals|] == w.goal;
    GoalFound(later.goals, w.goal);
  }

  /** A committed goal write set, sent again at any later point of any run, is accepted and changes
      nothing; with the same task, input and attempt but another decision it is always refused. */
  lemma {:induction false} GoalReplay(db: Db, w: GoalWrites, now: int, steps: seq<Step>, again: GoalWrites, when: int)
    requires Inv(db) && GoalDecision(db, w, now).Commit?
    requires LegalRun(Next(db, GoalDone(w, now)), steps)
    requires SameWork(again.goal, w.goal.task, w.goal.input, w.goal.attempt)
    ensures var later := Run(Next(db, GoalDone(w, now)), steps);
            && Next(later, GoalDone(again, when)) == later
            && (again == w ==> GoalDecision(later, again, when).AlreadyDone?)
            && (!SameDecision(again.goal, w.goal) ==> GoalDecision(later, again, when).Refuse?)
  {
    hide Run, LegalRun, Next, Inv, GoalContract, GoalFence, GoalInsertable;
    GoalStored(db, w, now, steps);
    GoalCommits(db, w, now);
    StaysUnless(Run(Next(db, GoalDone(w, now)), steps), GoalDone(again, when));
  }

  lemma {:induction false} StaysUnless(db: Db, s: Step)
    ensures !Commits(db, s) ==> Next(db, s) == db
  {
  }

  lemma {:induction false} PlanFound(ps: seq<Plan>, p: Plan)
    requires PlanTable(ps) && p in ps
    ensures FindPlan(ps, p.task, p.version) == Some(p)
  {
    var f := FindPlan(ps, p.task, p.version);
    var i :| 0 <= i < |ps| && ps[i] == p;
    assert f.Some?;
    var j :| 0 <= j < |ps| && ps[j] == f.value;
    assert !(i < j) && !(j < i);
  }

  /** An activated plan with its completed attempt. */
  ghost predicate Stands(db: Db, p: Plan, a: Attempt) {
    && p in db.plans && a.status == "COMPLETED" && p.attempt in db.attempts && db.attempts[p.attempt] == a
    && p.task in db.tasks && db.tasks[p.task].activePlan == Some(p.version)
  }

  lemma {:induction false} LeavesStanding(db: Db, next: Db, p: Plan, a: Attempt)
    requires Stands(db, p, a) && Leaves(db, next)
    ensures Stands(next, p, a)
  {
  }

  lemma {:induction false} ActivatesStanding(db: Db, next: Db, q: Plan, p: Plan, a: Attempt)
    requires Stands(db, p, a) && Activates(db, next, q)
    ensures Stands(next, p, a)
  {
    hide PlanSound;
    assert p in db.plans ==> p in next.plans;
  }

  lemma {:induction false} NextStands(db: Db, s: Step, p: Plan, a: Attempt)
    requires PlansKept(db) && Legal(db, s) && Stands(db, p, a)
    ensures Stands(Next(db, s), p, a)
  {
    hide GoalDecision, PlanDecision, CreateDecision, CancelDecision, PlansKept, Leaves, Activates, GoalCommit,
      PlanCommit, OthersMay, Stands;
    if Commits(db, s) {
      match s
      case Creation(w) =>
        CreationLeaves(db, w);
        LeavesStanding(db, Next(db, s), p, a);
      case GoalDone(w, now) =>
        GoalCommits(db, w, now);
        GoalLeaves(db, w, now);
        LeavesStanding(db, Next(db, s), p, a);
      case Activation(w, now) =>
        PlanActivates(db, w, now);
        ActivatesStanding(db, Next(db, s), w.plan, p, a);
      case Cancellation(w) =>
        CancellationLeaves(db, w);
        LeavesStanding(db, Next(db, s), p, a);
      case Others(next) =>
        OthersLeave(db, next);
        LeavesStanding(db, next, p, a);
    }
  }

  lemma {:induction false} RunStands(db: Db, steps: seq<Step>, p: Plan, a: Attempt)
    requires Inv(db) && LegalRun(db, steps) && Stands(db, p, a)
    ensures Stands(Run(db, steps), p, a)
  {
    if steps != [] {
      hide Inv, Next, Legal, LegalRun, Stands;
      RunUnfold(db, steps);
      var init := steps[..|steps| - 1];
      RunKeeps(db, init);
      InvParts(Run(db, init));
      RunStands(db, init, p, a);
      NextStands(Run(db, init), steps[|steps| - 1], p, a);
    }
  }

  lemma {:induction false} PlanStands(db: Db, w: PlanWrites, now: int)
    requires PlanDecision(db, w, now).Commit?
    ensures w.plan.task in db.tasks && w.completion.Some? && PlanAttempt(db, w).Some?
    ensures Stands(PlanCommit(db, w), w.plan, Complete(PlanAttempt(db, w).value, w.completion.value))
  {
    hide PlanDecision, PlanContract, PlanFence, PlanInsertable, PlanAttempt, PlanEvents;
    PlanCommits(db, w, now);
    TaskStore.AttemptGiven(db, w);
    var next := PlanCommit(db, w);
    assert next.plans[|db.plans|] == w.plan;
  }

  /** A committed plan write set, sent again at any later point of any run, is accepted and changes nothing. */
  lemma {:induction false} PlanReplayed(db: Db, w: PlanWrites, now: int, steps: seq<Step>, when: int)
    requires Inv(db) && PlanDecision(db, w, now).Commit?
    requires LegalRun(Next(db, Activation(w, now)), steps)
    ensures var later := Run(Next(db, Activation(w, now)), steps);
            PlanDecision(later, w, when).AlreadyDone? && Next(later, Activation(w, when)) == later
  {
    hide Run, LegalRun, Inv, PlanDecision, PlanCommit, PlanContract, PlanFence, Stands, PlanAttempt;
    var s := Activation(w, now);
    var next := Next(db, s);
    PlanCommits(db, w, now);
    PlanFenced(db, w);
    PlanContracted(w);
    PlanStands(db, w, now);
    NextKeeps(db, s);
    var a := Complete(PlanAttempt(db, w).value, w.completion.value);
    RunStands(next, steps, w.plan, a);
    RunKeeps(next, steps);
    var later := Run(next, steps);
    InvParts(later);
    StandingReplays(later, w, a, when);
    StaysUnless(later, Activation(w, when));
  }

  lemma {:induction false} StandingReplays(db: Db, w: PlanWrites, a: Attempt, when: int)
    requires PlanTable(db.plans) && Stands(db, w.plan, a) && PlanContract(w).None? && w.completion.Some?
    requires CompletedAs(Some(a), w.completion.value) && w.plan.predecessor.None? && w.plan.status == "ACTIVE"
    ensures PlanDecision(db, w, when).AlreadyDone?
  {
    hide PlanContract, PlanFence, PlanInsertable, PlanTable;
    PlanFound(db.plans, w.plan);
  }

  // Versions.

  lemma {:induction false} SequenceFound(es: seq<Event>, id: nat, default: int, k: nat)
    requires k < |es| && es[k].id == id && DistinctIds(es)
    ensures SequenceOf(es, id, default) == es[k].sequence
  {
    if k > 0 {
      assert es[0].id != es[k].id;
      SequenceFound(es[1..], id, default, k - 1);
    }
  }

  /** The events that activation or cancellation writes are numbered on from the task's counter; those
      about the task itself carry their sequence as business version, and each message carries the
      sequence of its event. */
  ghost predicate Stamps(added: seq<Event>, messages: seq<Message>, last: nat) {
    && (forall i :: 0 <= i < |added| ==> added[i].sequence == last + 1 + i)
    && (forall i :: 0 <= i < |added| && added[i].refType == Some("TASK") ==>
        added[i].businessVersion == Some(added[i].sequence))
    && (forall m :: 0 <= m < |messages| ==> Matches(messages[m], added))
  }

  ghost predicate Matches(m: Message, added: seq<Event>) {
    exists i :: 0 <= i < |added| && added[i].id == m.event && m.version == added[i].sequence
  }

  lemma {:induction false} PlanNotices(w: PlanWrites)
    requires PlanContract(w).None?
    ensures DistinctIds(w.events) && forall m :: 0 <= m < |w.messages| ==> HasEvent(w.events, w.messages[m].event)
  {
    hide DistinctIds, HasEvent, DistinctTargets, ChildrenContract, CompletionContract;
  }

  /** Whatever runs afterwards, the events and messages of an activation or a cancellation are found
      again, numbered and stamped. */
  lemma {:induction false} ActivationStamps(db: Db, w: PlanWrites, now: int, steps: seq<Step>)
    requires PlanDecision(db, w, now).Commit? && LegalRun(Next(db, Activation(w, now)), steps)
    ensures w.plan.task in db.tasks
    ensures var later := Run(Next(db, Activation(w, now)), steps);
            && db.events + PlanEvents(db, w) <= later.events
            && db.messages + StampedAll(w.messages, PlanEvents(db, w)) <= later.messages
            && Stamps(PlanEvents(db, w), StampedAll(w.messages, PlanEvents(db, w)), db.tasks[w.plan.task].lastSequence)
  {
    hide PlanDecision, PlanContract, PlanFence, Run, LegalRun, DistinctIds, HasEvent, SequenceOf;
    PlanCommits(db, w, now);
    RunExtends(Next(db, Activation(w, now)), steps);
    PlanNotices(w);
    var es := PlanEvents(db, w);
    forall m | 0 <= m < |w.messages|
      ensures Matches(Stamped(w.messages[m], es), es)
    {
      StampFound(w.events, es, w.messages[m]);
    }
  }

  lemma {:induction false} StampFound(given: seq<Event>, es: seq<Event>, m: Message)
    requires |es| == |given| && (forall i :: 0 <= i < |es| ==> es[i].id == given[i].id)
    requires DistinctIds(given) && HasEvent(given, m.event)
    ensures Matches(Stamped(m, es), es)
  {
    var i :| 0 <= i < |given| && given[i].id == m.event;
    SequenceFound(es, m.event, m.version, i);
    assert es[i].id == Stamped(m, es).event;
  }

  lemma {:induction false} CancellationStamps(db: Db, w: CancelWrites, steps: seq<Step>)
    requires CancelDecision(db, w).Commit? && LegalRun(Next(db, Cancellation(w)), steps)
    ensures w.task in db.tasks
    ensures var later := Run(Next(db, Cancellation(w)), steps);
            && db.events + [CancelEvent(db, w)] <= later.events
               && db.messages + [CancelMessage(db, w)] <= later.messages
            && Stamps([CancelEvent(db, w)], [CancelMessage(db, w)], db.tasks[w.task].lastSequence)
  {
    hide Run, LegalRun, CancelInsertable, CancelDecision;
    CancellationWrote(db, w);
    RunExtends(Next(db, Cancellation(w)), steps);
    CancelNotice(w, db);
    var added := [CancelEvent(db, w)];
    assert added[0].id == CancelMessage(db, w).event;
  }

  lemma {:induction false} CancelNotice(w: CancelWrites, db: Db)
    requires CancelDecision(db, w).Commit?
    ensures w.message.event == w.event.id
  {
  }
}
