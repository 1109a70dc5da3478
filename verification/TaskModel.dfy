/** The task tables and the constraints the database enforces on them. */
module TaskModel {
  import opened Seqs
  import opened TaskStatus

  /** No longer open to goals, plans or another cancellation. */
  predicate Closed(s: Status) {
    s == CancelRequested || IsTerminal(s)
  }

  datatype Task = Task(
    status: Status, activePlan: Option<nat>, input: nat, version: int, deadline: int, lastSequence: nat)

  /** A row of `task_event`; the business reference is three nullable columns. */
  datatype Event = Event(
    id: nat, task: nat, sequence: nat, kind: string,
    refType: Option<string>, refId: Option<nat>, businessVersion: Option<int>)

  datatype Message = Message(event: nat, destination: string, aggregate: nat, version: int)

  datatype Attempt = Attempt(
    id: nat, task: nat, input: nat, kind: string, planVersion: Option<nat>, agent: nat, status: string,
    rowVersion: int, createdAt: Option<int>, startedAt: Option<int>,
    resultKind: Option<string>, resultSchema: Option<string>, resultDigest: Option<string>, endedAt: Option<int>)

  datatype Goal = Goal(
    id: nat, task: nat, input: nat, attempt: nat, digest: string, gateDigest: string, outcome: string)

  datatype Plan = Plan(
    task: nat, version: nat, predecessor: Option<nat>, input: nat, attempt: nat, goal: nat, agent: nat,
    digest: string, status: string, reason: string, activatedAt: Option<int>, completedAt: Option<int>)

  /** A plan item, hypothesis, criterion or runtime row. */
  datatype Child = Child(task: nat, version: nat, item: nat)

  datatype Request = Request(
    id: nat, task: nat, input: nat, origin: string, status: string, attempt: nat, goal: Option<nat>,
    round: Option<nat>, requestedAt: int, expiresAt: int)

  datatype Db = Db(
    tasks: map<nat, Task>, attempts: map<nat, Attempt>, goals: seq<Goal>, plans: seq<Plan>,
    definitions: seq<Child>, runtime: seq<Child>, requests: seq<Request>,
    events: seq<Event>, messages: seq<Message>)

  const EMPTY := Db(map[], map[], [], [], [], [], [], [], [])

  datatype Error = ContractViolated(code: string) | TaskNotFound | Conflict(code: string) | IntegrityViolated

  // Constraints.

  /** `sequence_positive`, `business_ref_all_or_none` and `business_version_positive`. */
  predicate EventShape(e: Event) {
    && e.sequence >= 1
    && e.refType.Some? == e.refId.Some? == e.businessVersion.Some?
    && (e.businessVersion.Some? ==> e.businessVersion.value >= 1)
  }

  predicate SameReference(a: Event, b: Event) {
    a.task == b.task && a.refId.Some? && a.refType == b.refType && a.refId == b.refId
      && a.businessVersion == b.businessVersion
  }

  /** The key `(task_id, sequence)`, unique ids, and `uq_task_event_business_version`. */
  predicate EventTable(es: seq<Event>) {
    && (forall i :: 0 <= i < |es| ==> EventShape(es[i]))
    && (forall i, j :: 0 <= i < j < |es| ==>
          es[i].id != es[j].id && !(es[i].task == es[j].task && es[i].sequence == es[j].sequence)
            && !SameReference(es[i], es[j]))
  }

  predicate HasEvent(es: seq<Event>, id: nat) {
    exists i :: 0 <= i < |es| && es[i].id == id
  }

  predicate MessageTable(ms: seq<Message>, es: seq<Event>) {
    && (forall i :: 0 <= i < |ms| ==> ms[i].version >= 1 && HasEvent(es, ms[i].event))
    && (forall i, j :: 0 <= i < j < |ms| ==> !(ms[i].event == ms[j].event && ms[i].destination == ms[j].destination))
  }

  predicate SameWork(g: Goal, task: nat, input: nat, attempt: nat) {
    g.task == task && g.input == input && g.attempt == attempt
  }

  predicate GoalTable(gs: seq<Goal>) {
    forall i, j :: 0 <= i < j < |gs| ==>
      gs[i].id != gs[j].id && !SameWork(gs[i], gs[j].task, gs[j].input, gs[j].attempt)
  }

  predicate PlanShape(p: Plan) {
    && p.version >= 1 && (p.predecessor.Some? ==> 1 <= p.predecessor.value < p.version)
    && (p.status == "ACTIVE" ==> p.activatedAt.Some? && p.completedAt.None?)
  }

  /** The key `(task_id, plan_version)` and `uq_task_plan_version_active`. */
  predicate PlanTable(ps: seq<Plan>) {
    && (forall i :: 0 <= i < |ps| ==> PlanShape(ps[i]))
    && (forall i, j :: 0 <= i < j < |ps| && ps[i].task == ps[j].task ==>
          ps[i].version != ps[j].version && !(ps[i].status == "ACTIVE" && ps[j].status == "ACTIVE"))
  }

  predicate RequestShape(r: Request) {
    && r.requestedAt < r.expiresAt
    && (r.origin == "GOAL_CLARIFICATION" ==> r.goal.Some? && r.round.Some? && 1 <= r.round.value <= 2)
  }

  predicate RequestTable(rs: seq<Request>) {
    && (forall i :: 0 <= i < |rs| ==> RequestShape(rs[i]))
    && (forall i, j :: 0 <= i < j < |rs| ==>
          && rs[i].id != rs[j].id
          && !(rs[i].task == rs[j].task && rs[i].status == "PENDING" && rs[j].status == "PENDING")
          && !(rs[i].task == rs[j].task && rs[i].input == rs[j].input && rs[i].round.Some?
               && rs[i].round == rs[j].round))
  }

  /** A new attempt: a fresh id, `row_version_positive` and `plan_version_shape`. */
  predicate AttemptInsertable(attempts: map<nat, Attempt>, a: Attempt) {
    a.id !in attempts && a.rowVersion >= 1 && (a.kind == "GOAL_UNDERSTANDING" <==> a.planVersion.None?)
  }

  // Queries.

  function FindGoal(gs: seq<Goal>, task: nat, input: nat, attempt: nat): (r: Option<Goal>)
    ensures r.Some? ==> r.value in gs && SameWork(r.value, task, input, attempt)
    ensures r.None? ==> forall g :: g in gs ==> !SameWork(g, task, input, attempt)
  {
    if gs == [] then None
    else if SameWork(gs[|gs| - 1], task, input, attempt) then Some(gs[|gs| - 1])
    else FindGoal(gs[..|gs| - 1], task, input, attempt)
  }

  function GoalById(gs: seq<Goal>, id: nat): (r: Option<Goal>)
    ensures r.Some? ==> r.value in gs && r.value.id == id
    ensures r.None? ==> forall g :: g in gs ==> g.id != id
  {
    if gs == [] then None else if gs[|gs| - 1].id == id then Some(gs[|gs| - 1]) else GoalById(gs[..|gs| - 1], id)
  }

  function FindPlan(ps: seq<Plan>, task: nat, version: nat): (r: Option<Plan>)
    ensures r.Some? ==> r.value in ps && r.value.task == task && r.value.version == version
    ensures r.None? ==> forall p :: p in ps ==> !(p.task == task && p.version == version)
  {
    if ps == [] then None
    else if ps[|ps| - 1].task == task && ps[|ps| - 1].version == version then Some(ps[|ps| - 1])
    else FindPlan(ps[..|ps| - 1], task, version)
  }

  function AttemptOf(attempts: map<nat, Attempt>, id: nat): Option<Attempt> {
    if id in attempts then Some(attempts[id]) else None
  }

  /** The rounds of a task's goal clarifications, in order. */
  function Rounds(rs: seq<Request>, task: nat): seq<nat> {
    if rs == [] then []
    else
      var r := rs[|rs| - 1];
      Rounds(rs[..|rs| - 1], task)
      + (if r.task == task && r.origin == "GOAL_CLARIFICATION" then [if r.round.Some? then r.round.value else 0]
         else [])
  }

  /** The events of a task, in the order they were written. */
  function EventsOf(es: seq<Event>, task: nat): seq<Event> {
    if es == [] then []
    else EventsOf(es[..|es| - 1], task) + (if es[|es| - 1].task == task then [es[|es| - 1]] else [])
  }

  // Numbering.

  /** Consecutive sequences from `start`. */
  function Numbered(es: seq<Event>, start: nat): (r: seq<Event>)
    ensures |r| == |es| && forall i :: 0 <= i < |r| ==> r[i] == es[i].(sequence := start + i)
  {
    seq(|es|, i requires 0 <= i < |es| => es[i].(sequence := start + i))
  }

  /** The events of the task itself take their sequence as business version. */
  function Versioned(e: Event): Event {
    if e.refType == Some("TASK") then e.(businessVersion := Some(e.sequence)) else e
  }

  function VersionedAll(es: seq<Event>): (r: seq<Event>)
    ensures |r| == |es| && forall i :: 0 <= i < |r| ==> r[i] == Versioned(es[i])
  {
    seq(|es|, i requires 0 <= i < |es| => Versioned(es[i]))
  }

  predicate DistinctIds(es: seq<Event>) {
    forall i, j :: 0 <= i < j < |es| ==> es[i].id != es[j].id
  }

  predicate HasKind(es: seq<Event>, kind: string) {
    exists i :: 0 <= i < |es| && es[i].kind == kind
  }

  predicate DistinctTargets(ms: seq<Message>) {
    forall i, j :: 0 <= i < j < |ms| ==> !(ms[i].event == ms[j].event && ms[i].destination == ms[j].destination)
  }
}
