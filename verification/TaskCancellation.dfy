/** What holds around cancellation: silence afterwards, at most one request, and when it can be blocked. */
module TaskCancellation {
  import opened Seqs
  import opened TaskModel
  import opened TaskStatus
  import opened GoalCompletion
  import opened PlanActivation
  import opened TaskLifecycle
  import opened TaskRuns
  import TaskStore

  // After a cancellation request.

  ghost predicate IsClosed(db: Db, t: nat) {
    t in db.tasks && Closed(db.tasks[t].status)
  }

  /** Nothing was written for task `t`: no event, goal or plan, and its counter stands still. */
  ghost predicate Silent(db: Db, next: Db, t: nat) {
    && t in db.tasks && t in next.tasks && next.tasks[t].lastSequence == db.tasks[t].lastSequence
    && EventsOf(next.events, t) == EventsOf(db.events, t)
    && db.goals <= next.goals && (forall i :: |db.goals| <= i < |next.goals| ==> next.goals[i].task != t)
    && db.plans <= next.plans && (forall i :: |db.plans| <= i < |next.plans| ==> next.plans[i].task != t)
  }

  lemma {:induction false} WroteElsewhere(db: Db, next: Db, owner: nat, added: seq<Event>, last: nat, t: nat)
    requires Wrote(db, next, owner, added, last) && t != owner && t in db.tasks
    ensures EventsOf(next.events, t) == EventsOf(db.events, t) && next.tasks[t].lastSequence == db.tasks[t].lastSequence
  {
    EventsOfAppend(db.events, added, t);
    EventsOfOne(added, owner, t);
  }

  lemma {:induction false} GoalElsewhere(db: Db, w: GoalWrites, now: int, t: nat)
    requires IsClosed(db, t) && GoalDecision(db, w, now).Commit?
    ensures w.goal.task in db.tasks && IsClosed(GoalCommit(db, w), t) && Silent(db, GoalCommit(db, w), t)
  {
    hide GoalDecision, GoalContract, GoalFence, GoalInsertable, Wrote, EventsOf;
    GoalCommits(db, w, now);
    GoalFenced(db, w);
    GoalWrote(db, w, now);
    WroteElsewhere(db, GoalCommit(db, w), w.goal.task, GoalEvents(db, w), db.tasks[w.goal.task].lastSequence, t);
  }

  lemma {:induction false} PlanElsewhere(db: Db, w: PlanWrites, now: int, t: nat)
    requires IsClosed(db, t) && PlanDecision(db, w, now).Commit?
    ensures w.plan.task in db.tasks && w.completion.Some? && PlanAttempt(db, w).Some?
    ensures IsClosed(PlanCommit(db, w), t) && Silent(db, PlanCommit(db, w), t)
  {
    hide PlanDecision, PlanContract, PlanFence, PlanInsertable, Wrote, EventsOf, GoalReady, PlanAttemptRunning;
    PlanCommits(db, w, now);
    PlanFenced(db, w);
    PlanWrote(db, w, now);
    WroteElsewhere(db, PlanCommit(db, w), w.plan.task, PlanEvents(db, w), db.tasks[w.plan.task].lastSequence, t);
    GivenGoalTask(w);
  }

  lemma {:induction false} GivenGoalTask(w: PlanWrites)
    requires PlanContract(w).None?
    ensures forall i :: 0 <= i < |GivenGoal(w)| ==> GivenGoal(w)[i].task == w.plan.task
  {
    hide CompletionContract, DistinctIds, HasEvent, DistinctTargets, ChildrenContract;
  }

  lemma {:induction false} CancelElsewhere(db: Db, w: CancelWrites, t: nat)
    requires IsClosed(db, t) && CancelDecision(db, w).Commit?
    ensures w.task in db.tasks && IsClosed(CancelCommit(db, w), t) && Silent(db, CancelCommit(db, w), t)
  {
    hide EventsOf, CancelInsertable, CancelContract, Wrote;
    CancellationWrote(db, w);
    WroteElsewhere(db, CancelCommit(db, w), w.task, [CancelEvent(db, w)], db.tasks[w.task].lastSequence, t);
  }

  lemma {:induction false} CreateElsewhere(db: Db, w: CreateWrites, t: nat)
    requires IsClosed(db, t) && CreateDecision(db, w).Commit?
    ensures IsClosed(CreateCommit(db, w), t) && Silent(db, CreateCommit(db, w), t)
  {
    hide EventsOf, EventTable, MessageTable, CreateContract, Wrote;
    CreationWrote(db, w);
    WroteElsewhere(db, CreateCommit(db, w), w.id, [w.event], 0, t);
  }

  lemma {:induction false} OthersElsewhere(db: Db, next: Db, t: nat)
    requires IsClosed(db, t) && OthersMay(db, next)
    ensures IsClosed(next, t) && Silent(db, next, t)
  {
    hide EventsOf, Rounds;
    assert TaskMay(db.tasks[t], next.tasks[t]);
  }

  lemma {:induction false} NextSilent(db: Db, s: Step, t: nat)
    requires IsClosed(db, t) && Legal(db, s)
    ensures IsClosed(Next(db, s), t) && Silent(db, Next(db, s), t)
  {
    hide GoalDecision, PlanDecision, CreateDecision, CancelDecision, Silent, IsClosed, GoalCommit, PlanCommit,
      OthersMay;
    if Commits(db, s) {
      match s
      case Creation(w) => CreateElsewhere(db, w, t);
      case GoalDone(w, now) => GoalElsewhere(db, w, now, t);
      case Activation(w, now) => PlanElsewhere(db, w, now, t);
      case Cancellation(w) => CancelElsewhere(db, w, t);
      case Others(next) => OthersElsewhere(db, next, t);
    } else {
      SilentSame(db, t);
    }
  }

  lemma {:induction false} SilentSame(db: Db, t: nat)
    requires IsClosed(db, t)
    ensures Silent(db, db, t)
  {
  }

  lemma {:induction false} SilentThen(a: Db, b: Db, c: Db, t: nat)
    requires Silent(a, b, t) && Silent(b, c, t)
    ensures Silent(a, c, t)
  {
    hide EventsOf;
    forall i | |a.goals| <= i < |c.goals|
      ensures c.goals[i].task != t
    {
      assert i < |b.goals| ==> c.goals[i] == b.goals[i];
    }
    forall i | |a.plans| <= i < |c.plans|
      ensures c.plans[i].task != t
    {
      assert i < |b.plans| ==> c.plans[i] == b.plans[i];
    }
  }

  /** Once cancellation is requested, or a task has ended, no transaction of any later run writes an
      event, a goal or a plan for it again. */
  lemma {:induction false} ClosedForever(db: Db, steps: seq<Step>, t: nat)
    requires IsClosed(db, t) && LegalRun(db, steps)
    ensures IsClosed(Run(db, steps), t) && Silent(db, Run(db, steps), t)
  {
    if steps == [] {
      SilentSame(db, t);
    } else {
      hide IsClosed, Silent, Run, LegalRun, Next, Legal;
      RunUnfold(db, steps);
      var init, s := steps[..|steps| - 1], steps[|steps| - 1];
      ClosedForever(db, init, t);
      NextSilent(Run(db, init), s, t);
      SilentThen(db, Run(db, init), Run(db, steps), t);
    }
  }

  lemma {:induction false} CancelCloses(db: Db, w: CancelWrites)
    requires CancelDecision(db, w).Commit?
    ensures w.task in db.tasks && !Closed(db.tasks[w.task].status) && IsClosed(CancelCommit(db, w), w.task)
  {
    hide CancelInsertable, CancelContract;
  }

  // Counting cancellation events.

  function Cancellations(es: seq<Event>, t: nat): nat {
    if es == [] then 0
    else
      Cancellations(es[..|es| - 1], t)
      + (if es[|es| - 1].task == t && es[|es| - 1].kind == "TASK_CANCELLED" then 1 else 0)
  }

  lemma {:induction false} CancellationsAppend(a: seq<Event>, b: seq<Event>, t: nat)
    ensures Cancellations(a + b, t) == Cancellations(a, t) + Cancellations(b, t)
  {
    if b == [] {
      assert a + b == a;
    } else {
      SnocConcat(a, b);
      assert (a + b)[..|a + b| - 1] == a + b[..|b| - 1];
      CancellationsAppend(a, b[..|b| - 1], t);
    }
  }

  /** Numbering events keeps what they are about. */
  lemma {:induction false} CancellationsAlike(a: seq<Event>, b: seq<Event>, t: nat)
    requires |a| == |b| && forall i :: 0 <= i < |a| ==> a[i].task == b[i].task && a[i].kind == b[i].kind
    ensures Cancellations(a, t) == Cancellations(b, t)
  {
    if a != [] {
      CancellationsAlike(a[..|a| - 1], b[..|b| - 1], t);
    }
  }

  lemma {:induction false} CancellationsOne(e: Event, t: nat)
    ensures Cancellations([e], t) == if e.task == t && e.kind == "TASK_CANCELLED" then 1 else 0
  {
    assert [e][..0] == [];
  }

  /** The TASK_CANCELLED events of `t` that a step brings in a creation, goal or plan write set. */
  function Carried(db: Db, s: Step, t: nat): nat {
    if !Commits(db, s) then 0
    else
      match s
      case Creation(w) => Cancellations([w.event], t)
      case GoalDone(w, _) => Cancellations(w.events, t)
      case Activation(w, _) => Cancellations(w.events, t)
      case Cancellation(_) => 0
      case Others(_) => 0
  }

  function Requests(db: Db, s: Step, t: nat): nat {
    if s.Cancellation? && s.cancel.task == t && Commits(db, s) then 1 else 0
  }

  function CarriedIn(db: Db, steps: seq<Step>, t: nat): nat {
    if steps == [] then 0
    else CarriedIn(db, steps[..|steps| - 1], t) + Carried(Run(db, steps[..|steps| - 1]), steps[|steps| - 1], t)
  }

  function RequestsIn(db: Db, steps: seq<Step>, t: nat): nat {
    if steps == [] then 0
    else RequestsIn(db, steps[..|steps| - 1], t) + Requests(Run(db, steps[..|steps| - 1]), steps[|steps| - 1], t)
  }

  lemma {:induction false} CancelCounted(db: Db, w: CancelWrites, t: nat)
    requires CancelDecision(db, w).Commit?
    ensures w.task in db.tasks
    ensures Cancellations(CancelCommit(db, w).events, t) == Cancellations(db.events, t) + (if w.task == t then 1 else 0)
  {
    hide CancelInsertable;
    CancellationsAppend(db.events, [CancelEvent(db, w)], t);
    CancellationsOne(CancelEvent(db, w), t);
  }

  lemma {:induction false} StepCounted(db: Db, s: Step, t: nat)
    requires Legal(db, s)
    ensures Cancellations(Next(db, s).events, t) == Cancellations(db.events, t) + Carried(db, s, t) + Requests(db, s, t)
  {
    hide GoalDecision, PlanDecision, CreateDecision, CancelDecision, Cancellations, Rounds, CancelCommit;
    if Commits(db, s) {
      match s
      case Creation(w) => CancellationsAppend(db.events, [w.event], t);
      case GoalDone(w, now) =>
        GoalCommits(db, w, now);
        CancellationsAlike(GoalEvents(db, w), w.events, t);
        CancellationsAppend(db.events, GoalEvents(db, w), t);
      case Activation(w, now) =>
        PlanCommits(db, w, now);
        TaskStore.AttemptGiven(db, w);
        CancellationsAlike(PlanEvents(db, w), w.events, t);
        CancellationsAppend(db.events, PlanEvents(db, w), t);
      case Cancellation(w) => CancelCounted(db, w, t);
      case Others(next) =>
    }
  }

  lemma {:induction false} RequestCloses(db: Db, s: Step, t: nat)
    requires Legal(db, s)
    ensures Requests(db, s, t) <= 1
    ensures Requests(db, s, t) == 1 ==> !IsClosed(db, t) && IsClosed(Next(db, s), t)
  {
    hide GoalDecision, PlanDecision, CreateDecision, CancelDecision, CancelCommit, IsClosed;
    if s.Cancellation? && Commits(db, s) {
      CancelCloses(db, s.cancel);
      NotClosed(db, s.cancel.task);
    }
  }

  lemma {:induction false} NotClosed(db: Db, t: nat)
    requires t in db.tasks && !Closed(db.tasks[t].status)
    ensures !IsClosed(db, t)
  {
  }

  /** Over any run, cancellation is committed at most once per task and never for a closed one, and the
      TASK_CANCELLED events are exactly those and the ones that other write sets carried. */
  lemma {:induction false} CancelledOnce(db: Db, steps: seq<Step>, t: nat)
    requires LegalRun(db, steps)
    ensures RequestsIn(db, steps, t) <= 1
    ensures RequestsIn(db, steps, t) == 1 ==> IsClosed(Run(db, steps), t)
    ensures IsClosed(db, t) ==> RequestsIn(db, steps, t) == 0
    ensures Cancellations(Run(db, steps).events, t) ==
            Cancellations(db.events, t) + CarriedIn(db, steps, t) + RequestsIn(db, steps, t)
  {
    if steps != [] {
      hide IsClosed, LegalRun, Next, Legal, Requests, Carried, Cancellations, Silent;
      RunUnfold(db, steps);
      var init, s := steps[..|steps| - 1], steps[|steps| - 1];
      CancelledOnce(db, init, t);
      StepCounted(Run(db, init), s, t);
      RequestCloses(Run(db, init), s, t);
      if IsClosed(Run(db, init), t) {
        NextSilent(Run(db, init), s, t);
      }
      if IsClosed(db, t) {
        ClosedForever(db, init, t);
      }
    }
  }

  // At most one event.

  /** The write set itself holds a TASK_CANCELLED event. */
  predicate Carries(s: Step) {
    match s
    case Creation(w) => w.event.kind == "TASK_CANCELLED"
    case GoalDone(w, _) => HasKind(w.events, "TASK_CANCELLED")
    case Activation(w, _) => HasKind(w.events, "TASK_CANCELLED")
    case Cancellation(_) => false
    case Others(_) => false
  }

  /** A task has at most one TASK_CANCELLED event, and one that has is closed. */
  ghost predicate OnceClosed(db: Db) {
    forall t :: Cancellations(db.events, t) <= 1 && (Cancellations(db.events, t) == 1 ==> IsClosed(db, t))
  }

  lemma {:induction false} CancellationsNone(es: seq<Event>, t: nat)
    requires !HasKind(es, "TASK_CANCELLED")
    ensures Cancellations(es, t) == 0
  {
    if es != [] {
      var init := es[..|es| - 1];
      assert forall i :: 0 <= i < |init| ==> init[i] == es[i];
      CancellationsNone(init, t);
    }
  }

  lemma {:induction false} CancellationsSome(es: seq<Event>, t: nat)
    requires HasKind(es, "TASK_CANCELLED") && forall i :: 0 <= i < |es| ==> es[i].task == t
    ensures Cancellations(es, t) >= 1
  {
    var init := es[..|es| - 1];
    if es[|es| - 1].kind != "TASK_CANCELLED" {
      var i :| 0 <= i < |es| && es[i].kind == "TASK_CANCELLED";
      assert init[i] == es[i];
      CancellationsSome(init, t);
    }
  }

  lemma {:induction false} NoneCarried(db: Db, s: Step, t: nat)
    requires !(Commits(db, s) && Carries(s))
    ensures Carried(db, s, t) == 0
  {
    hide Commits, HasKind, Cancellations;
    match s {
      case Creation(w) => CancellationsOne(w.event, t);
      case GoalDone(w, _) => if !Carries(s) { CancellationsNone(w.events, t); }
      case Activation(w, _) => if !Carries(s) { CancellationsNone(w.events, t); }
      case Cancellation(_) =>
      case Others(_) =>
    }
  }

  /** A write set that carries a cancellation event leaves the event's task open. */
  lemma {:induction false} CarrierLeavesOpen(db: Db, s: Step) returns (t: nat)
    requires Commits(db, s) && Carries(s)
    ensures Carried(db, s, t) >= 1 && !IsClosed(Next(db, s), t)
  {
    hide GoalDecision, PlanDecision, CreateContract, EventTable, MessageTable, Cancellations, HasKind;
    match s {
      case Creation(w) =>
        t := w.id;
        CancellationsOne(w.event, t);
        CreatedOwn(db, w);
      case GoalDone(w, now) =>
        t := w.goal.task;
        GoalLeavesOpen(db, w, now);
        CancellationsSome(w.events, t);
      case Activation(w, now) =>
        t := w.plan.task;
        PlanLeavesOpen(db, w, now);
        CancellationsSome(w.events, t);
    }
  }

  lemma {:induction false} GoalLeavesOpen(db: Db, w: GoalWrites, now: int)
    requires GoalDecision(db, w, now).Commit?
    ensures forall i :: 0 <= i < |w.events| ==> w.events[i].task == w.goal.task
    ensures !IsClosed(Next(db, GoalDone(w, now)), w.goal.task)
  {
    hide GoalDecision, GoalEvents;
    GoalCommits(db, w, now);
    GoalContracted(w);
  }

  lemma {:induction false} PlanLeavesOpen(db: Db, w: PlanWrites, now: int)
    requires PlanDecision(db, w, now).Commit?
    ensures forall i :: 0 <= i < |w.events| ==> w.events[i].task == w.plan.task
    ensures !IsClosed(Next(db, Activation(w, now)), w.plan.task)
  {
    hide PlanDecision, PlanEvents;
    PlanCommits(db, w, now);
    TaskStore.AttemptGiven(db, w);
    PlanContracted(w);
  }

  lemma {:induction false} CreatedOwn(db: Db, w: CreateWrites)
    requires CreateDecision(db, w).Commit?
    ensures w.event.task == w.id
  {
  }

  lemma {:induction false} CountedKeeps(db: Db, s: Step, t: nat)
    requires OnceClosed(db) && Legal(db, s) && !(Commits(db, s) && Carries(s))
    ensures var n := Cancellations(Next(db, s).events, t); n <= 1 && (n == 1 ==> IsClosed(Next(db, s), t))
  {
    assert Cancellations(db.events, t) <= 1 && (Cancellations(db.events, t) == 1 ==> IsClosed(db, t));
    hide *;
    NoneCarried(db, s, t);
    StepCounted(db, s, t);
    RequestCloses(db, s, t);
    if IsClosed(db, t) {
      NextSilent(db, s, t);
    }
  }

  /** A transaction keeps at most one TASK_CANCELLED event per task, on closed tasks only, if and only if
      it does not commit a goal, plan or creation write set that holds such an event itself. */
  lemma {:induction false} OnceKeptWhen(db: Db, s: Step)
    requires OnceClosed(db) && Legal(db, s)
    ensures OnceClosed(Next(db, s)) <==> !(Commits(db, s) && Carries(s))
  {
    if Commits(db, s) && Carries(s) {
      hide Carries, Commits, Next, Legal, Cancellations, IsClosed, Carried, Requests;
      var t := CarrierLeavesOpen(db, s);
      StepCounted(db, s, t);
      assert Cancellations(Next(db, s).events, t) >= 1;
    } else {
      forall t
        ensures var n := Cancellations(Next(db, s).events, t); n <= 1 && (n == 1 ==> IsClosed(Next(db, s), t))
      {
        CountedKeeps(db, s, t);
      }
    }
  }

  /** No step of the run commits a write set that holds a TASK_CANCELLED event itself. */
  predicate CarrierFree(db: Db, steps: seq<Step>) {
    steps != [] ==>
      var before, last := steps[..|steps| - 1], steps[|steps| - 1];
      CarrierFree(db, before) && !(Commits(Run(db, before), last) && Carries(last))
  }

  ghost predicate OnceThroughout(db: Db, steps: seq<Step>) {
    OnceClosed(Run(db, steps)) && (steps != [] ==> OnceThroughout(db, steps[..|steps| - 1]))
  }

  /** From the empty database, every state of a run has at most one TASK_CANCELLED event per task, on
      closed tasks only, if and only if no write set of the run carries one. */
  lemma {:induction false} OnceThroughoutWhen(steps: seq<Step>)
    requires LegalRun(EMPTY, steps)
    ensures OnceThroughout(EMPTY, steps) <==> CarrierFree(EMPTY, steps)
  {
    if steps == [] {
      assert Run(EMPTY, steps) == EMPTY;
    } else {
      hide OnceClosed, Commits, Carries, Next, Legal;
      RunUnfold(EMPTY, steps);
      var before, last := steps[..|steps| - 1], steps[|steps| - 1];
      OnceThroughoutWhen(before);
      if OnceThroughout(EMPTY, before) {
        OnceKeptWhen(Run(EMPTY, before), last);
      }
    }
  }

  // What can stand in the way of a cancellation.

  ghost predicate NewIds(db: Db, w: CancelWrites) {
    && w.event.refType.Some? && w.event.refId.Some?
    && (forall i :: 0 <= i < |db.events| ==> db.events[i].id != w.event.id)
  }

  /** Does an event of the task already claim the version that the cancellation would take? */
  ghost predicate VersionTaken(db: Db, w: CancelWrites)
    requires w.task in db.tasks
  {
    exists i :: 0 <= i < |db.events| && db.events[i].task == w.task && db.events[i].refType == w.event.refType
                && db.events[i].refId == w.event.refId
                   && db.events[i].businessVersion == Some(db.tasks[w.task].lastSequence + 1)
  }

  lemma {:induction false} SequenceUnused(db: Db, t: nat, i: nat)
    requires EventsKept(db) && t in db.tasks && i < |db.events| && db.events[i].task == t
    ensures db.events[i].sequence <= db.tasks[t].lastSequence
  {
    assert Gapless(db, t);
    EventListed(db.events, t, i);
  }

  lemma {:induction false} EventListed(es: seq<Event>, t: nat, i: nat)
    requires i < |es| && es[i].task == t
    ensures es[i] in EventsOf(es, t)
  {
    if i < |es| - 1 {
      EventListed(es[..|es| - 1], t, i);
    }
  }

  lemma {:induction false} EventTableSnoc(es: seq<Event>, e: Event)
    requires EventTable(es)
    ensures EventTable(es + [e]) <==>
            EventShape(e) && forall i :: 0 <= i < |es| ==>
              es[i].id != e.id && !(es[i].task == e.task && es[i].sequence == e.sequence) && !SameReference(es[i], e)
  {
    var all := es + [e];
    if EventTable(all) {
      assert EventShape(all[|es|]);
      forall i | 0 <= i < |es|
        ensures es[i].id != e.id && !(es[i].task == e.task && es[i].sequence == e.sequence) && !SameReference(es[i], e)
      {
        assert all[i] == es[i] && all[|es|] == e;
      }
    }
  }

  lemma {:induction false} MessageTableSnoc(ms: seq<Message>, es: seq<Event>, m: Message, e: Event)
    requires MessageTable(ms, es) && m.event == e.id && m.version >= 1
    requires forall i :: 0 <= i < |es| ==> es[i].id != e.id
    ensures MessageTable(ms + [m], es + [e])
  {
    var all := es + [e];
    forall i | 0 <= i < |ms|
      ensures HasEvent(all, ms[i].event) && ms[i].event != m.event
    {
      var j :| 0 <= j < |es| && es[j].id == ms[i].event;
      assert all[j] == es[j];
    }
    assert all[|es|].id == m.event;
  }

  /** A cancellation in order, with fresh ids, of an open task commits exactly when no earlier event of the
      same reference took the next sequence as its business version. An event versioned by its own sequence
      cannot have done so; a goal event, whose version is not back-filled, can. */
  lemma {:induction false} CancelCommitsWhen(db: Db, w: CancelWrites)
    requires Inv(db) && CancelContract(w).None? && w.task in db.tasks && !Closed(db.tasks[w.task].status)
             && NewIds(db, w)
    ensures CancelDecision(db, w).Commit? <==> !VersionTaken(db, w)
  {
    var e := CancelEvent(db, w);
    InvParts(db);
    forall i | 0 <= i < |db.events|
      ensures !(db.events[i].task == e.task && db.events[i].sequence == e.sequence)
    {
      if db.events[i].task == w.task {
        SequenceUnused(db, w.task, i);
      }
    }
    hide Inv, EventsKept, TablesKept, EventTable, MessageTable, PlansKept, RoundsKept;
    TablesParts(db);
    EventTableSnoc(db.events, e);
    if !VersionTaken(db, w) {
      MessageTableSnoc(db.messages, db.events, CancelMessage(db, w), e);
    }
  }

  lemma {:induction false} TablesParts(db: Db)
    requires TablesKept(db)
    ensures EventTable(db.events) && MessageTable(db.messages, db.events)
  {
  }

  // A goal write set may itself carry a TASK_CANCELLED event.

  function PlainEvent(id: nat, kind: string): Event {
    Event(id, 1, 1, kind, None, None, None)
  }

  /** A task, moved to planning with its goal attempt completed. */
  function InPlanning(): Db {
    Db(map[1 := Task(Planning, None, 7, 1, 100, 1)],
       map[5 := Attempt(5, 1, 7, "GOAL_UNDERSTANDING", None, 0, "COMPLETED", 1, None, None, None, None, None, None)],
       [], [], [], [], [], [PlainEvent(10, "TASK_CREATED")], [Message(10, "TEMPORAL_START", 1, 1)])
  }

  const CREATED := CreateWrites(1, Queued, 0, 7, 7, 7, 100, Event(10, 1, 1, "TASK_CREATED", None, None, None),
                                Message(10, "TEMPORAL_START", 1, 1))

  const CARRIER := GoalWrites(
    Goal(20, 1, 7, 5, "", "", "READY_TO_PLAN"), 1, None, None,
    [Event(11, 1, 1, "GOAL_UNDERSTANDING_COMPLETED", None, None, None),
     Event(12, 1, 1, "TASK_CANCELLED", None, None, None)],
    [Message(11, "MQ", 1, 1)])

  const CANCEL := CancelWrites(
    1, Event(13, 1, 0, "TASK_CANCELLED", Some("TASK"), Some(1), None), Message(13, "TEMPORAL_SIGNAL", 1, 0),
    Audit("TASK", 1, "SUCCESS"))

  /** The task as created. */
  function AsCreated(): Db {
    InPlanning().(tasks := map[1 := Task(Queued, None, 7, 1, 100, 1)], attempts := map[])
  }

  lemma {:induction false} OneEvent(e: Event, m: Message)
    requires EventShape(e) && m.version >= 1 && m.event == e.id
    ensures EventTable([e]) && MessageTable([m], [e])
  {
    assert [e][0].id == m.event;
  }

  lemma {:induction false} CreatedFits()
    ensures CreateDecision(EMPTY, CREATED).Commit?
  {
    OneEvent(CREATED.event, CREATED.message);
    hide EventTable, MessageTable;
    assert EMPTY.events + [CREATED.event] == [CREATED.event] && EMPTY.messages + [CREATED.message] == [CREATED.message];
  }

  lemma {:induction false} CreatedFirst()
    ensures Commits(EMPTY, Creation(CREATED)) && Next(EMPTY, Creation(CREATED)) == AsCreated()
  {
    CreatedFits();
    hide CreateDecision;
    assert EMPTY.events + [CREATED.event] == [CREATED.event] && EMPTY.messages + [CREATED.message] == [CREATED.message];
  }

  lemma {:induction false} PlanningReached()
    ensures Legal(AsCreated(), Others(InPlanning())) && Next(AsCreated(), Others(InPlanning())) == InPlanning()
  {
    hide Rounds;
  }

  lemma {:induction false} CarrierFits()
    ensures GoalContract(CARRIER).None? && GoalFence(InPlanning(), CARRIER).None?
  {
    var w := CARRIER;
    assert w.events[0].id == 11;
    assert HasEvent(w.events, 11);
    assert HasKind(w.events, "GOAL_UNDERSTANDING_COMPLETED");
  }

  lemma {:induction false} CarrierInserts()
    ensures GoalInsertable(InPlanning(), CARRIER)
    ensures InPlanning().events + GoalEvents(InPlanning(), CARRIER)
            == [CREATED.event, CARRIER.events[0].(sequence := 2), CARRIER.events[1].(sequence := 3)]
  {
    var db, w := InPlanning(), CARRIER;
    var es := [CREATED.event, w.events[0].(sequence := 2), w.events[1].(sequence := 3)];
    var ms := [CREATED.message, w.messages[0]];
    assert db.events + GoalEvents(db, w) == es && db.messages + w.messages == ms;
    ThreeEvents(es[0], es[1], es[2]);
    TwoMessages(ms[0], ms[1], es, 0, 1);
    hide EventTable, MessageTable;
    assert [] + [w.goal] == [w.goal] && Asked(w) == [] && db.requests + Asked(w) == [];
  }

  lemma {:induction false} ThreeEvents(a: Event, b: Event, c: Event)
    requires EventShape(a) && EventShape(b) && EventShape(c) && a.refId.None? && b.refId.None? && c.refId.None?
    requires a.id != b.id && b.id != c.id && a.id != c.id
    requires a.sequence != b.sequence && b.sequence != c.sequence && a.sequence != c.sequence
    ensures EventTable([a, b, c])
  {
  }

  lemma {:induction false} TwoMessages(m: Message, n: Message, es: seq<Event>, i: nat, j: nat)
    requires m.version >= 1 && n.version >= 1 && m.event != n.event
    requires i < |es| && j < |es| && es[i].id == m.event && es[j].id == n.event
    ensures MessageTable([m, n], es)
  {
    assert HasEvent(es, m.event) && HasEvent(es, n.event);
  }

  lemma {:induction false} CarrierCommits()
    ensures Commits(InPlanning(), GoalDone(CARRIER, 0))
    ensures var d := Next(InPlanning(), GoalDone(CARRIER, 0));
            && d.tasks == map[1 := Task(Planning, None, 7, 2, 100, 3)]
            && d.events == [CREATED.event, CARRIER.events[0].(sequence := 2), CARRIER.events[1].(sequence := 3)]
            && d.messages == [CREATED.message, CARRIER.messages[0]]
  {
    hide GoalContract, GoalFence, GoalInsertable, GoalEvents;
    CarrierFits();
    CarrierInserts();
    assert GoalDecision(InPlanning(), CARRIER, 0).Commit?;
  }

  lemma {:induction false} CarriedThenCancelled(db: Db)
    requires db.tasks == map[1 := Task(Planning, None, 7, 2, 100, 3)]
    requires db.events == [CREATED.event, CARRIER.events[0].(sequence := 2), CARRIER.events[1].(sequence := 3)]
    requires db.messages == [CREATED.message, CARRIER.messages[0]]
    ensures Cancellations(Next(db, Cancellation(CANCEL)).events, 1) == 2
  {
    var e := CancelEvent(db, CANCEL);
    var es := [db.events[0], db.events[1], db.events[2], e];
    assert db.events + [e] == es;
    assert db.events + [e] == es && es[0].id == 10 && es[1].id == 11 && es[3].id == 13;
    assert HasEvent(es, 10) && HasEvent(es, 11) && HasEvent(es, 13);
    assert CancelDecision(db, CANCEL).Commit?;
    CancelCounted(db, CANCEL, 1);
    var given := db.events;
    assert given[..2] == [given[0], given[1]] && [given[0], given[1]][..1] == [given[0]];
    CancellationsOne(given[0], 1);
    assert Cancellations(given, 1) == 1;
  }

  lemma {:induction false} RunSnoc(db: Db, steps: seq<Step>, s: Step)
    ensures LegalRun(db, steps + [s]) <==> LegalRun(db, steps) && Legal(Run(db, steps), s)
    ensures Run(db, steps + [s]) == Next(Run(db, steps), s)
  {
    hide Next, Legal;
    assert (steps + [s])[..|steps|] == steps;
  }

  /** A run of four legal steps after which a task has two TASK_CANCELLED events. */
  lemma {:induction false} CancelledTwice() returns (steps: seq<Step>)
    ensures LegalRun(EMPTY, steps) && Cancellations(Run(EMPTY, steps).events, 1) == 2
  {
    NothingRun(EMPTY);
    hide *;
    var one := [] + [Creation(CREATED)];
    var two := one + [Others(InPlanning())];
    var three := two + [GoalDone(CARRIER, 0)];
    steps := three + [Cancellation(CANCEL)];
    CreatedFirst();
    RunSnoc(EMPTY, [], Creation(CREATED));
    RunSnoc(EMPTY, one, Others(InPlanning()));
    RunSnoc(EMPTY, two, GoalDone(CARRIER, 0));
    RunSnoc(EMPTY, three, Cancellation(CANCEL));
    PlanningReached();
    CarrierCommits();
    CarriedThenCancelled(Next(InPlanning(), GoalDone(CARRIER, 0)));
    OwnStepsLegal(CREATED, CARRIER, CANCEL);
  }

  lemma {:induction false} NothingRun(db: Db)
    ensures LegalRun(db, []) && Run(db, []) == db
  {
  }

  lemma {:induction false} OwnStepsLegal(a: CreateWrites, b: GoalWrites, c: CancelWrites)
    ensures forall db :: Legal(db, Creation(a)) && Legal(db, GoalDone(b, 0)) && Legal(db, Cancellation(c))
  {
  }
}
