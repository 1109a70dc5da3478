/** Creating a task and asking for its cancellation. */
module TaskLifecycle {
  import opened Seqs
  import opened TaskModel
  import opened TaskStatus
  import opened GoalCompletion

  datatype CreateWrites = CreateWrites(
    id: nat, status: Status, lastSequence: nat, initialInput: nat, currentInput: nat, input: nat,
    deadline: int, event: Event, message: Message)

  /** The part of `TaskCreationWriteSet.validate_relations` that concerns these tables. */
  function CreateContract(w: CreateWrites): Option<string> {
    if w.status != Queued then Some("TASK_INITIAL_STATUS_NOT_QUEUED")
    else if w.lastSequence != 0 then Some("TASK_INITIAL_EVENT_SEQUENCE_NOT_ZERO")
    else if w.initialInput != w.input || w.currentInput != w.input then Some("TASK_INITIAL_INPUT_RELATION_INVALID")
    else if w.event.task != w.id then Some("TASK_EVENT_TASK_MISMATCH")
    else if w.event.sequence != 1 then Some("TASK_CREATED_EVENT_SEQUENCE_INVALID")
    else if w.message.event != w.event.id then Some("TASK_OUTBOX_EVENT_MISMATCH")
    else None
  }

  function CreateDecision(db: Db, w: CreateWrites): Decision {
    if CreateContract(w).Some? then Refuse(ContractViolated(CreateContract(w).value))
    else if w.id in db.tasks || !EventTable(db.events + [w.event])
      || !MessageTable(db.messages + [w.message], db.events + [w.event])
    then Refuse(IntegrityViolated)
    else Commit
  }

  function CreateCommit(db: Db, w: CreateWrites): Db {
    db.(tasks := db.tasks[w.id := Task(Queued, None, w.currentInput, 1, w.deadline, 1)],
        events := db.events + [w.event], messages := db.messages + [w.message])
  }

  // Cancellation.

  datatype Audit = Audit(resourceType: string, resource: nat, outcome: string)

  datatype CancelWrites = CancelWrites(task: nat, event: Event, message: Message, audit: Audit)

  datatype CancelDisposition = Requested | AlreadyRequested | AlreadyCancelled | TerminalTask

  function CancelContract(w: CancelWrites): Option<string> {
    if w.event.task != w.task then Some("TASK_CANCEL_EVENT_TASK_MISMATCH")
    else if w.event.kind != "TASK_CANCELLED" then Some("TASK_CANCEL_EVENT_TYPE_INVALID")
    else if w.message.event != w.event.id then Some("TASK_CANCEL_OUTBOX_EVENT_MISMATCH")
    else if w.message.destination != "TEMPORAL_SIGNAL" then Some("TASK_CANCEL_OUTBOX_DESTINATION_INVALID")
    else if w.audit != Audit("TASK", w.task, "SUCCESS") then Some("TASK_CANCEL_AUDIT_RESOURCE_MISMATCH")
    else None
  }

  /** `decide_cancel`. */
  function DecideCancel(s: Status): CancelDisposition {
    match s
    case Cancelled => AlreadyCancelled
    case CancelRequested => AlreadyRequested
    case Completed => TerminalTask
    case Failed => TerminalTask
    case _ => Requested
  }

  function CancelEvent(db: Db, w: CancelWrites): Event
    requires w.task in db.tasks
  {
    var n := db.tasks[w.task].lastSequence + 1;
    w.event.(sequence := n, businessVersion := Some(n))
  }

  function CancelMessage(db: Db, w: CancelWrites): Message
    requires w.task in db.tasks
  {
    w.message.(version := db.tasks[w.task].lastSequence + 1)
  }

  predicate CancelInsertable(db: Db, w: CancelWrites)
    requires w.task in db.tasks
  {
    && EventTable(db.events + [CancelEvent(db, w)])
    && MessageTable(db.messages + [CancelMessage(db, w)], db.events + [CancelEvent(db, w)])
  }

  function CancelDecision(db: Db, w: CancelWrites): Decision {
    if CancelContract(w).Some? then Refuse(ContractViolated(CancelContract(w).value))
    else if w.task !in db.tasks then Refuse(TaskNotFound)
    else
      match DecideCancel(db.tasks[w.task].status)
      case AlreadyCancelled => AlreadyDone
      case AlreadyRequested => AlreadyDone
      case TerminalTask => Refuse(Conflict("TASK_CANCEL_TERMINAL"))
      case Requested => if CancelInsertable(db, w) then Commit else Refuse(IntegrityViolated)
  }

  function CancelCommit(db: Db, w: CancelWrites): Db
    requires w.task in db.tasks
  {
    var t := db.tasks[w.task];
    db.(tasks := db.tasks[w.task := t.(status := CancelRequested, lastSequence := t.lastSequence + 1)],
        events := db.events + [CancelEvent(db, w)], messages := db.messages + [CancelMessage(db, w)])
  }
}
