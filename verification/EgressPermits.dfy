/** One-shot egress permits: issued READY, admitted once, their secret read once, or expired. */
module EgressPermits {
  import opened Seqs

  datatype Call = Call(
    status: string, authorization: nat, execution: nat, cancellation: nat, modelId: string, modelRevision: string)

  datatype Body = Body(
    modelId: string, modelRevision: string, parameters: string, schema: Option<string>, input: string)

  datatype PermitStatus = Ready | Admitted | SecretRead | Revoked | Expired

  datatype RawPermit = Permit(
    callId: nat, route: string, providerModel: string, secretRef: string, secretVersion: nat, body: Body,
    authorization: nat, execution: nat, cancellation: nat, status: PermitStatus,
    expiresAt: int, admittedAt: Option<int>, secretReadAt: Option<int>, rowVersion: nat, createdAt: int)

  predicate Lifecycle(status: PermitStatus, admittedAt: Option<int>, secretReadAt: Option<int>) {
    match status
    case Ready => admittedAt.None? && secretReadAt.None?
    case Admitted => admittedAt.Some? && secretReadAt.None?
    case SecretRead => admittedAt.Some? && secretReadAt.Some?
    case _ => secretReadAt.None?
  }

  /** What the permit type itself validates on construction. */
  type PermitV1 = p: RawPermit | p.expiresAt > p.createdAt && Lifecycle(p.status, p.admittedAt, p.secretReadAt)
    witness Permit(0, "", "", "", 0, Body("", "", "", None, ""), 0, 0, 0, Ready, 1, None, None, 1, 0)

  /** A row of `model_egress_permit`, keyed by model call. */
  datatype Record = Record(
    route: string, providerModel: string, secretRef: string, secretVersion: nat, modelRevision: string,
    parameters: string, schema: Option<string>, input: string,
    authorization: nat, execution: nat, cancellation: nat, status: PermitStatus,
    expiresAt: int, admittedAt: Option<int>, secretReadAt: Option<int>, rowVersion: nat, createdAt: int, updatedAt: int)

  function RecordOf(p: PermitV1): Record {
    Record(p.route, p.providerModel, p.secretRef, p.secretVersion, p.body.modelRevision, p.body.parameters,
           p.body.schema, p.body.input, p.authorization, p.execution, p.cancellation, p.status, p.expiresAt,
           p.admittedAt, p.secretReadAt,
           p.rowVersion, p.createdAt, p.createdAt)
  }

  /** The columns that never change after issue. */
  function Facts(r: Record): Record {
    r.(status := Ready, admittedAt := None, secretReadAt := None, rowVersion := 1, updatedAt := r.createdAt)
  }

  datatype Code =
    | IssueStateInvalid | CallNotFound | CallNotSendable | AuthorizationChanged | ExecutionChanged | CancellationChanged
    | ModelBindingChanged | IdempotencyConflict | PermitNotFound | RouteMismatch | ProjectionMismatch(field: string)
    | PermitExpired | AlreadyUsed

  datatype Disposition = Inserted | IdempotentReplay

  datatype Grant = Grant(providerModel: string, secretRef: string, secretVersion: nat)

  datatype Decision = Reject(code: Code) | Admit(grant: Grant)

  datatype AdmitRequest = AdmitRequest(callId: nat, route: string, body: Body)

  datatype SecretRequest = SecretRequest(callId: nat, route: string, secretRef: string, secretVersion: nat)

  type Calls = map<nat, Call>
  type Permits = map<nat, Record>

  /** `_require_call_snapshot`. */
  function SnapshotRejection(c: Call, p: PermitV1): Option<Code> {
    if c.status != "SENDING" then Some(CallNotSendable)
    else if c.authorization != p.authorization then Some(AuthorizationChanged)
    else if c.execution != p.execution then Some(ExecutionChanged)
    else if c.cancellation != p.cancellation then Some(CancellationChanged)
    else if c.modelId != p.providerModel || c.modelRevision != p.body.modelRevision || p.providerModel != p.body.modelId
    then Some(ModelBindingChanged)
    else None
  }

  /** `_current_call_rejection`, for a call and a permit that exist. */
  function CurrentRejection(c: Call, r: Record): Option<Code> {
    if c.status != "SENDING" then Some(CallNotSendable)
    else if c.authorization != r.authorization then Some(AuthorizationChanged)
    else if c.execution != r.execution then Some(ExecutionChanged)
    else if c.cancellation != r.cancellation then Some(CancellationChanged)
    else if c.modelId != r.providerModel || c.modelRevision != r.modelRevision then Some(ModelBindingChanged)
    else None
  }

  /** `verify_egress_projection` against the frozen body of the record. */
  function ProjectionRejection(r: Record, actual: Body): Option<Code> {
    if actual.modelId != r.providerModel then Some(ProjectionMismatch("MODEL_ID"))
    else if actual.modelRevision != r.modelRevision then Some(ProjectionMismatch("MODEL_REVISION"))
    else if actual.parameters != r.parameters then Some(ProjectionMismatch("PARAMETERS"))
    else if actual.schema != r.schema then Some(ProjectionMismatch("SCHEMA"))
    else if actual.input != r.input then Some(ProjectionMismatch("INPUT"))
    else None
  }

  function OrElse(first: Option<Code>, second: Option<Code>): Option<Code> {
    if first.Some? then first else second
  }

  function When(b: bool, code: Code): Option<Code> {
    if b then Some(code) else None
  }

  /** `_expire`. */
  function ExpireRecord(r: Record, now: int): Record {
    if r.status == Ready || r.status == Admitted
    then r.(status := Expired, rowVersion := r.rowVersion + 1, updatedAt := now)
    else r
  }

  function IssueOutcome(calls: Calls, permits: Permits, p: PermitV1): Result<Disposition, Code> {
    if p.status != Ready || p.rowVersion != 1 then Err(IssueStateInvalid)
    else if p.callId !in calls then Err(CallNotFound)
    else
      match SnapshotRejection(calls[p.callId], p)
      case Some(code) => Err(code)
      case None =>
        if p.callId !in permits then Ok(Inserted)
        else if Facts(permits[p.callId]) == Facts(RecordOf(p)) then Ok(IdempotentReplay)
        else Err(IdempotencyConflict)
  }

  /** The checks before expiry: they reject without touching the record. */
  function AdmitChecks(c: Call, r: Record, q: AdmitRequest): Option<Code> {
    OrElse(CurrentRejection(c, r), OrElse(When(q.route != r.route, RouteMismatch), ProjectionRejection(r, q.body)))
  }

  function AdmitStep(calls: Calls, permits: Permits, q: AdmitRequest, now: int): (Decision, Permits) {
    if q.callId !in calls || q.callId !in permits then (Reject(PermitNotFound), permits)
    else
      var r := permits[q.callId];
      match AdmitChecks(calls[q.callId], r, q)
      case Some(code) => (Reject(code), permits)
      case None =>
        if r.expiresAt <= now then (Reject(PermitExpired), permits[q.callId := ExpireRecord(r, now)])
        else if r.status != Ready then (Reject(AlreadyUsed), permits)
        else
          (Admit(Grant(r.providerModel, r.secretRef, r.secretVersion)),
           permits[q.callId := r.(status := Admitted, admittedAt := Some(now), rowVersion := r.rowVersion + 1,
                                  updatedAt := now)])
  }

  function AuthorizeStep(calls: Calls, permits: Permits, q: SecretRequest, now: int): (bool, Permits) {
    if q.callId !in calls || q.callId !in permits then (false, permits)
    else
      var r := permits[q.callId];
      if CurrentRejection(calls[q.callId], r).Some? then (false, permits)
      else if r.expiresAt <= now then (false, permits[q.callId := ExpireRecord(r, now)])
      else if r.status != Admitted || q.route != r.route || q.secretRef != r.secretRef
        || q.secretVersion != r.secretVersion
      then (false, permits)
      else
        (true, permits[q.callId := r.(status := SecretRead, secretReadAt := Some(now), rowVersion := r.rowVersion + 1,
                                      updatedAt := now)])
  }

  class EgressPermitAuthority {
    var calls: Calls
    var permits: Permits

    constructor (calls: Calls)
      ensures this.calls == calls && permits == map[]
    {
      this.calls := calls;
      permits := map[];
    }

    method IssueReady(p: PermitV1) returns (r: Result<Disposition, Code>)
      modifies this`permits
      ensures r == IssueOutcome(old(calls), old(permits), p)
      ensures permits == if r == Ok(Inserted) then old(permits)[p.callId := RecordOf(p)] else old(permits)
    {
      if p.status != Ready || p.rowVersion != 1 {
        return Err(IssueStateInvalid);
      }
      if p.callId !in calls {
        return Err(CallNotFound);
      }
      var rejection := SnapshotRejection(calls[p.callId], p);
      if rejection.Some? {
        return Err(rejection.value);
      }
      if p.callId !in permits {
        permits := permits[p.callId := RecordOf(p)];
        return Ok(Inserted);
      }
      if Facts(permits[p.callId]) != Facts(RecordOf(p)) {
        return Err(IdempotencyConflict);
      }
      return Ok(IdempotentReplay);
    }

    method AdmitCall(q: AdmitRequest, now: int) returns (d: Decision)
      modifies this`permits
      ensures (d, permits) == AdmitStep(old(calls), old(permits), q, now)
    {
      if q.callId !in calls || q.callId !in permits {
        return Reject(PermitNotFound);
      }
      var permit := permits[q.callId];
      var reason := CurrentRejection(calls[q.callId], permit);
      if reason.None? && q.route != permit.route {
        reason := Some(RouteMismatch);
      }
      if reason.None? {
        reason := ProjectionRejection(permit, q.body);
      }
      if reason.None? && permit.expiresAt <= now {
        permits := permits[q.callId := ExpireRecord(permit, now)];
        reason := Some(PermitExpired);
      }
      if reason.None? && permit.status != Ready {
        reason := Some(AlreadyUsed);
      }
      if reason.Some? {
        return Reject(reason.value);
      }
      permits := permits[q.callId :=
        permit.(status := Admitted, admittedAt := Some(now), rowVersion := permit.rowVersion + 1, updatedAt := now)];
      return Admit(Grant(permit.providerModel, permit.secretRef, permit.secretVersion));
    }

    method Authorize(q: SecretRequest, now: int) returns (allowed: bool)
      modifies this`permits
      ensures (allowed, permits) == AuthorizeStep(old(calls), old(permits), q, now)
    {
      if q.callId !in calls || q.callId !in permits {
        return false;
      }
      var permit := permits[q.callId];
      if CurrentRejection(calls[q.callId], permit).Some? {
        return false;
      }
      if permit.expiresAt <= now {
        permits := permits[q.callId := ExpireRecord(permit, now)];
        return false;
      }
      if permit.status != Admitted || q.route != permit.route || q.secretRef != permit.secretRef
         || q.secretVersion != permit.secretVersion {
        return false;
      }
      permits := permits[q.callId :=
        permit.(status := SecretRead, secretReadAt := Some(now), rowVersion := permit.rowVersion + 1,
                updatedAt := now)];
      return true;
    }
  }

  // Runs.

  datatype Op =
    | Issue(permit: PermitV1)
    | TryAdmit(admission: AdmitRequest, now: int)
    | TryAuthorize(secret: SecretRequest, now: int)
    | ChangeCall(callId: nat, call: Option<Call>)

  /** What the outside saw: an admission or a secret read for a call, with the route it asked for. */
  datatype Seen = SawAdmission(callId: nat, route: string) | SawRead(callId: nat, route: string)

  datatype World = World(calls: Calls, permits: Permits, log: seq<Seen>)

  function Apply(w: World, op: Op): World {
    match op
    case Issue(p) =>
      if IssueOutcome(w.calls, w.permits, p) == Ok(Inserted) then w.(permits := w.permits[p.callId := RecordOf(p)])
      else w
    case TryAdmit(q, now) =>
      var (d, permits) := AdmitStep(w.calls, w.permits, q, now);
      w.(permits := permits, log := w.log + (if d.Admit? then [SawAdmission(q.callId, q.route)] else []))
    case TryAuthorize(q, now) =>
      var (ok, permits) := AuthorizeStep(w.calls, w.permits, q, now);
      w.(permits := permits, log := w.log + (if ok then [SawRead(q.callId, q.route)] else []))
    case ChangeCall(id, call) =>
      w.(calls := match call case Some(c) => w.calls[id := c] case None => w.calls - {id})
  }

  function Run(w: World, ops: seq<Op>): World {
    if ops == [] then w else Apply(Run(w, ops[..|ops| - 1]), ops[|ops| - 1])
  }

  /** What was seen for one call, in order. */
  function LogOf(log: seq<Seen>, id: nat): seq<Seen> {
    if log == [] then []
    else LogOf(log[..|log| - 1], id) + (if log[|log| - 1].callId == id then [log[|log| - 1]] else [])
  }

  lemma {:induction false} LogSnoc(log: seq<Seen>, s: Seen, id: nat)
    ensures LogOf(log + [s], id) == LogOf(log, id) + (if s.callId == id then [s] else [])
    ensures log + [] == log
  {
    assert (log + [s])[..|log|] == log;
  }

  /** A permit's status tells exactly what was seen for its call, and its row version how far it got. */
  ghost predicate CallOk(w: World, id: nat) {
    var seen := LogOf(w.log, id);
    if id !in w.permits then seen == []
    else
      var r := w.permits[id];
      && Lifecycle(r.status, r.admittedAt, r.secretReadAt)
      && (match r.status
          case Ready => seen == [] && r.rowVersion == 1
          case Admitted => seen == [SawAdmission(id, r.route)] && r.rowVersion == 2
          case SecretRead => seen == [SawAdmission(id, r.route), SawRead(id, r.route)] && r.rowVersion == 3
          case Expired =>
            && r.rowVersion == |seen| + 2 && (seen == [] || seen == [SawAdmission(id, r.route)])
          case Revoked => false)
  }

  /** What one admission attempt can do to the record of its call. */
  lemma {:induction false} AdmitCases(calls: Calls, permits: Permits, q: AdmitRequest, now: int)
    ensures var (d, ps) := AdmitStep(calls, permits, q, now);
            if q.callId !in permits then !d.Admit? && ps == permits
            else
              var r := permits[q.callId];
              if d.Admit? then
                && r.status == Ready && q.route == r.route
                && ps == permits[q.callId := r.(status := Admitted, admittedAt := Some(now),
                                                rowVersion := r.rowVersion + 1, updatedAt := now)]
              else ps == permits || ps == permits[q.callId := ExpireRecord(r, now)]
  {
  }

  lemma {:induction false} AuthorizeCases(calls: Calls, permits: Permits, q: SecretRequest, now: int)
    ensures var (ok, ps) := AuthorizeStep(calls, permits, q, now);
            if q.callId !in permits then !ok && ps == permits
            else
              var r := permits[q.callId];
              if ok then
                && r.status == Admitted && q.route == r.route
                && ps == permits[q.callId := r.(status := SecretRead, secretReadAt := Some(now),
                                                rowVersion := r.rowVersion + 1, updatedAt := now)]
              else ps == permits || ps == permits[q.callId := ExpireRecord(r, now)]
  {
  }

  lemma {:induction false} ExpireKeeps(w: World, callId: nat, now: int, id: nat)
    requires CallOk(w, id) && callId in w.permits
    ensures CallOk(w.(permits := w.permits[callId := ExpireRecord(w.permits[callId], now)]), id)
  {
  }

  lemma {:induction false} AdmitKeeps(w: World, q: AdmitRequest, now: int, id: nat)
    requires CallOk(w, id)
    ensures CallOk(Apply(w, TryAdmit(q, now)), id)
  {
    hide AdmitStep, ExpireRecord, LogOf;
    AdmitCases(w.calls, w.permits, q, now);
    LogSnoc(w.log, SawAdmission(q.callId, q.route), id);
    if q.callId in w.permits {
      ExpireKeeps(w, q.callId, now, id);
    }
  }

  lemma {:induction false} AuthorizeKeeps(w: World, q: SecretRequest, now: int, id: nat)
    requires CallOk(w, id)
    ensures CallOk(Apply(w, TryAuthorize(q, now)), id)
  {
    hide AuthorizeStep, ExpireRecord, LogOf;
    AuthorizeCases(w.calls, w.permits, q, now);
    LogSnoc(w.log, SawRead(q.callId, q.route), id);
    if q.callId in w.permits {
      ExpireKeeps(w, q.callId, now, id);
    }
  }

  lemma {:induction false} StepKeeps(w: World, op: Op, id: nat)
    requires CallOk(w, id)
    ensures CallOk(Apply(w, op), id)
  {
    hide AdmitStep, AuthorizeStep, LogOf;
    match op {
      case TryAdmit(q, now) => AdmitKeeps(w, q, now, id);
      case TryAuthorize(q, now) => AuthorizeKeeps(w, q, now, id);
      case _ =>
    }
  }

  /** In every reachable state, for every call. */
  lemma {:induction false} RunKeeps(calls: Calls, ops: seq<Op>, id: nat)
    ensures CallOk(Run(World(calls, map[], []), ops), id)
  {
    if ops != [] {
      hide Apply, CallOk;
      RunKeeps(calls, ops[..|ops| - 1], id);
      StepKeeps(Run(World(calls, map[], []), ops[..|ops| - 1]), ops[|ops| - 1], id);
    }
  }

  /** A secret is read at most once per call, and only after exactly one admission, on the same route. */
  lemma {:induction false} ReadAtMostOnce(calls: Calls, ops: seq<Op>, id: nat)
    ensures var seen := LogOf(Run(World(calls, map[], []), ops).log, id);
            seen == [] || exists route ::
              seen == [SawAdmission(id, route)] || seen == [SawAdmission(id, route), SawRead(id, route)]
  {
    RunKeeps(calls, ops, id);
  }

  /** The row version counts the status changes: a step either leaves a record as it is or changes its
      status and adds one; and it never exceeds three. */
  lemma {:induction false} VersionCountsChanges(w: World, op: Op, id: nat)
    requires CallOk(w, id) && id in w.permits
    ensures var v := Apply(w, op);
            && id in v.permits && Facts(v.permits[id]) == Facts(w.permits[id])
            && (v.permits[id] == w.permits[id]
                || (v.permits[id].status != w.permits[id].status
                    && v.permits[id].rowVersion == w.permits[id].rowVersion + 1))
            && v.permits[id].rowVersion <= 3
  {
    hide AdmitStep, AuthorizeStep, LogOf;
    StepKeeps(w, op, id);
    match op {
      case TryAdmit(q, now) => AdmitCases(w.calls, w.permits, q, now);
      case TryAuthorize(q, now) => AuthorizeCases(w.calls, w.permits, q, now);
      case _ =>
    }
  }

  // What the outside sees rests on the permit as issued and the call as it stands.

  /** The record holds the permit's facts, column by column. */
  predicate Frozen(r: Record, p: PermitV1) {
    && r.route == p.route && r.providerModel == p.providerModel == p.body.modelId
    && r.secretRef == p.secretRef && r.secretVersion == p.secretVersion
    && r.modelRevision == p.body.modelRevision && r.parameters == p.body.parameters
    && r.schema == p.body.schema && r.input == p.body.input
    && r.authorization == p.authorization && r.execution == p.execution && r.cancellation == p.cancellation
    && r.expiresAt == p.expiresAt && r.createdAt == p.createdAt
  }

  /** The call is being sent, under the numbers and the model that the permit names. */
  predicate Standing(c: Call, p: PermitV1) {
    && c.status == "SENDING"
    && c.authorization == p.authorization && c.execution == p.execution && c.cancellation == p.cancellation
    && c.modelId == p.providerModel && c.modelRevision == p.body.modelRevision
  }

  predicate CallStands(w: World, p: PermitV1) {
    p.callId in w.calls && Standing(w.calls[p.callId], p)
  }

  /** The run issued `p`, and the record of its call holds it. */
  ghost predicate IssuedFor(w: World, ops: seq<Op>, id: nat, p: PermitV1) {
    p.callId == id && id in w.permits && Frozen(w.permits[id], p) && Issue(p) in ops
  }

  /** A permit is recorded exactly for a call that stands as it says and has none yet; it is accepted again
      exactly with the same facts. */
  lemma {:induction false} IssuedExactlyWhen(w: World, p: PermitV1)
    ensures var outcome := IssueOutcome(w.calls, w.permits, p);
            var fits := p.status == Ready && p.rowVersion == 1 && CallStands(w, p) && p.providerModel == p.body.modelId;
            && (outcome == Ok(Inserted) <==> fits && p.callId !in w.permits)
            && (outcome == Ok(IdempotentReplay) <==> fits && p.callId in w.permits && Frozen(w.permits[p.callId], p))
            && (outcome == Err(IdempotencyConflict) <==>
                fits && p.callId in w.permits && !Frozen(w.permits[p.callId], p))
    ensures IssueOutcome(w.calls, w.permits, p) == Ok(Inserted) ==>
              p.callId in Apply(w, Issue(p)).permits && Frozen(Apply(w, Issue(p)).permits[p.callId], p)
  {
    FactsOf(RecordOf(p));
    if p.callId in w.permits {
      FactsOf(w.permits[p.callId]);
    }
  }

  lemma {:induction false} FactsOf(r: Record)
    ensures var f := Facts(r);
            f == Record(r.route, r.providerModel, r.secretRef, r.secretVersion, r.modelRevision, r.parameters, r.schema,
                        r.input, r.authorization, r.execution, r.cancellation, Ready, r.expiresAt, None, None, 1,
                        r.createdAt, r.createdAt)
  {
  }

  /** No step but the recording of a permit touches the facts of any record. */
  lemma {:induction false} FactsStay(w: World, op: Op, id: nat, p: PermitV1)
    requires id in w.permits && Frozen(w.permits[id], p)
    ensures id in Apply(w, op).permits && Frozen(Apply(w, op).permits[id], p)
  {
    hide AdmitStep, AuthorizeStep;
    match op {
      case TryAdmit(q, now) => AdmitCases(w.calls, w.permits, q, now);
      case TryAuthorize(q, now) => AuthorizeCases(w.calls, w.permits, q, now);
      case _ =>
    }
  }

  lemma {:induction false} NothingNew(w: World, op: Op, id: nat)
    requires id !in w.permits && !(op.Issue? && op.permit.callId == id)
    ensures id !in Apply(w, op).permits
  {
    hide AdmitStep, AuthorizeStep;
    match op {
      case TryAdmit(q, now) => AdmitCases(w.calls, w.permits, q, now);
      case TryAuthorize(q, now) => AuthorizeCases(w.calls, w.permits, q, now);
      case _ =>
    }
  }

  lemma {:induction false} IssuedStep(w: World, p: PermitV1)
    requires p.callId !in w.permits && p.callId in Apply(w, Issue(p)).permits
    ensures Frozen(Apply(w, Issue(p)).permits[p.callId], p)
  {
  }

  /** Every record of a run is that of a permit the run issued. */
  lemma {:induction false} RecordsAreIssued(calls: Calls, ops: seq<Op>, id: nat) returns (p: PermitV1)
    requires id in Run(World(calls, map[], []), ops).permits
    ensures IssuedFor(Run(World(calls, map[], []), ops), ops, id, p)
  {
    var before, op := ops[..|ops| - 1], ops[|ops| - 1];
    var w := Run(World(calls, map[], []), before);
    assert ops == before + [op];
    hide Apply, Frozen, Run;
    assert Run(World(calls, map[], []), ops) == Apply(w, op) by {
      RunSnoc(World(calls, map[], []), before, op);
    }
    if id in w.permits {
      p := RecordsAreIssued(calls, before, id);
      FactsStay(w, op, id, p);
    } else if op.Issue? && op.permit.callId == id {
      p := op.permit;
      IssuedStep(w, p);
    } else {
      NothingNew(w, op, id);
      assert false;
    }
  }

  lemma {:induction false} RunSnoc(w: World, ops: seq<Op>, op: Op)
    ensures Run(w, ops + [op]) == Apply(Run(w, ops), op) && Run(w, []) == w
  {
    assert (ops + [op])[..|ops|] == ops;
  }

  /** An admission, for the record of `p`: exactly once, unexpired, for a call that stands, on the permit's
      route and with the frozen body; and what it grants is the permit's. */
  lemma {:induction false} AdmittedExactlyWhen(w: World, p: PermitV1, q: AdmitRequest, now: int)
    requires q.callId == p.callId && p.callId in w.permits && Frozen(w.permits[p.callId], p)
    ensures var d := AdmitStep(w.calls, w.permits, q, now).0;
            && (d.Admit? <==>
                && CallStands(w, p) && q.route == p.route && q.body == p.body
                && now < p.expiresAt && w.permits[p.callId].status == Ready)
            && (d.Admit? ==> d.grant == Grant(p.providerModel, p.secretRef, p.secretVersion))
  {
  }

  /** Reading the secret: exactly once after the admission, unexpired, for a call that still stands, and
      naming the permit's route and secret. */
  lemma {:induction false} AuthorizedExactlyWhen(w: World, p: PermitV1, q: SecretRequest, now: int)
    requires q.callId == p.callId && p.callId in w.permits && Frozen(w.permits[p.callId], p)
    ensures AuthorizeStep(w.calls, w.permits, q, now).0 <==>
            && CallStands(w, p) && now < p.expiresAt && w.permits[p.callId].status == Admitted
            && q == SecretRequest(p.callId, p.route, p.secretRef, p.secretVersion)
  {
  }

  /** What a step must have been to be seen, for permit `p`. */
  ghost predicate Earned(w: World, op: Op, p: PermitV1) {
    && CallStands(w, p)
    && match op
       case TryAdmit(q, now) => q == AdmitRequest(p.callId, p.route, p.body) && now < p.expiresAt
       case TryAuthorize(q, now) =>
         q == SecretRequest(p.callId, p.route, p.secretRef, p.secretVersion) && now < p.expiresAt
       case _ => false
  }

  lemma {:induction false} SeenOnlyFor(w: World, op: Op)
    ensures Apply(w, op).log != w.log ==>
              && (op.TryAdmit? || op.TryAuthorize?)
              && var id := if op.TryAdmit? then op.admission.callId else op.secret.callId;
                 && id in w.permits && |Apply(w, op).log| == |w.log| + 1 && Apply(w, op).log[|w.log|].callId == id
                 && Apply(w, op).log[..|w.log|] == w.log
  {
    assert w.log + [] == w.log;
    assert forall s: Seen :: (w.log + [s])[..|w.log|] == w.log;
  }

  /** Over every run: whatever is seen for a call is seen while the call is being sent under the very
      numbers and model of a permit the run issued for it, on that permit's route, before it expires; an
      admission with the frozen body, a read with the permit's secret. */
  lemma {:induction false} SeenIsEarned(calls: Calls, ops: seq<Op>, op: Op) returns (p: PermitV1)
    requires var w := Run(World(calls, map[], []), ops);
             Apply(w, op).log != w.log
    ensures var w := Run(World(calls, map[], []), ops);
            IssuedFor(w, ops, p.callId, p) && Earned(w, op, p) && Apply(w, op).log[|w.log|].callId == p.callId
  {
    var w := Run(World(calls, map[], []), ops);
    SeenOnlyFor(w, op);
    p := RecordsAreIssued(calls, ops, if op.TryAdmit? then op.admission.callId else op.secret.callId);
    hide Run, AdmitStep, AuthorizeStep;
    if op.TryAdmit? {
      AdmittedExactlyWhen(w, p, op.admission, op.now);
    } else {
      AuthorizedExactlyWhen(w, p, op.secret, op.now);
    }
  }

  /** The call does not stand as the permit says. */
  predicate Changed(w: World, id: nat, p: PermitV1) {
    p.callId == id && id in w.permits && Frozen(w.permits[id], p) && !CallStands(w, p)
  }

  lemma {:induction false} QuietStep(w: World, op: Op, id: nat, p: PermitV1)
    requires Changed(w, id, p)
    requires op.ChangeCall? && op.callId == id && op.call.Some? ==> !Standing(op.call.value, p)
    ensures Changed(Apply(w, op), id, p) && LogOf(Apply(w, op).log, id) == LogOf(w.log, id)
  {
    FactsStay(w, op, id, p);
    hide AdmitStep, AuthorizeStep, LogOf, Frozen, Standing;
    match op {
      case TryAdmit(q, now) =>
        LogSnoc(w.log, SawAdmission(q.callId, q.route), id);
        if q.callId == id {
          AdmittedExactlyWhen(w, p, q, now);
        }
      case TryAuthorize(q, now) =>
        LogSnoc(w.log, SawRead(q.callId, q.route), id);
        if q.callId == id {
          AuthorizedExactlyWhen(w, p, q, now);
        }
      case _ =>
    }
  }

  /** Once the call has another status, version, generation or model, nothing more is seen for it until it
      is changed back to what the permit names. */
  lemma {:induction false} QuietWhileChanged(w: World, ops: seq<Op>, id: nat, p: PermitV1)
    requires Changed(w, id, p)
    requires forall k :: 0 <= k < |ops| && ops[k].ChangeCall? && ops[k].callId == id && ops[k].call.Some? ==>
               !Standing(ops[k].call.value, p)
    ensures Changed(Run(w, ops), id, p) && LogOf(Run(w, ops).log, id) == LogOf(w.log, id)
  {
    if ops != [] {
      hide Apply, Changed, Standing, LogOf;
      var before := ops[..|ops| - 1];
      assert forall k :: 0 <= k < |before| ==> before[k] == ops[k];
      QuietWhileChanged(w, before, id, p);
      QuietStep(Run(w, before), ops[|ops| - 1], id, p);
    }
  }

  // Expiry and rejections.

  /** An attempt after the deadline, otherwise in order, expires the permit. */
  lemma {:induction false} OverdueExpires(w: World, op: Op, p: PermitV1)
    requires p.callId in w.permits && Frozen(w.permits[p.callId], p) && CallStands(w, p)
    requires w.permits[p.callId].status == Ready || w.permits[p.callId].status == Admitted
    requires match op
             case TryAdmit(q, now) => q == AdmitRequest(p.callId, p.route, p.body) && p.expiresAt <= now
             case TryAuthorize(q, now) => q.callId == p.callId && p.expiresAt <= now
             case _ => false
    ensures var v := Apply(w, op);
            v.permits[p.callId].status == Expired && v.log == w.log
    ensures op.TryAdmit? ==> AdmitStep(w.calls, w.permits, op.admission, op.now).0 == Reject(PermitExpired)
  {
    assert w.log + [] == w.log;
  }

  lemma {:induction false} ExpiredStep(w: World, op: Op, id: nat)
    requires id in w.permits && w.permits[id].status == Expired
    ensures var v := Apply(w, op);
            id in v.permits && v.permits[id] == w.permits[id] && LogOf(v.log, id) == LogOf(w.log, id)
  {
    hide LogOf;
    match op {
      case TryAdmit(q, now) => LogSnoc(w.log, SawAdmission(q.callId, q.route), id);
      case TryAuthorize(q, now) => LogSnoc(w.log, SawRead(q.callId, q.route), id);
      case _ =>
    }
  }

  /** An expired permit is never used again, whatever the clocks of later attempts say. */
  lemma {:induction false} ExpiredForever(w: World, ops: seq<Op>, id: nat)
    requires id in w.permits && w.permits[id].status == Expired
    ensures var v := Run(w, ops);
            id in v.permits && v.permits[id] == w.permits[id] && LogOf(v.log, id) == LogOf(w.log, id)
  {
    if ops != [] {
      hide Apply, LogOf;
      ExpiredForever(w, ops[..|ops| - 1], id);
      ExpiredStep(Run(w, ops[..|ops| - 1]), ops[|ops| - 1], id);
    }
  }

  /** The reason that a rejection names is true, and nothing that is checked before it fails. */
  ghost predicate Reason(code: Code, c: Call, p: PermitV1, q: AdmitRequest, now: int, status: PermitStatus) {
    var numbers := c.status == "SENDING" && c.authorization == p.authorization && c.execution == p.execution;
    match code
    case CallNotSendable => c.status != "SENDING"
    case AuthorizationChanged => c.status == "SENDING" && c.authorization != p.authorization
    case ExecutionChanged =>
      c.status == "SENDING" && c.authorization == p.authorization && c.execution != p.execution
    case CancellationChanged => numbers && c.cancellation != p.cancellation
    case ModelBindingChanged =>
      && numbers && c.cancellation == p.cancellation
      && (c.modelId != p.providerModel || c.modelRevision != p.body.modelRevision)
    case RouteMismatch => Standing(c, p) && q.route != p.route
    case ProjectionMismatch(field) =>
      && Standing(c, p) && q.route == p.route
      && (match field
          case "MODEL_ID" => q.body.modelId != p.body.modelId
          case "MODEL_REVISION" => q.body.modelRevision != p.body.modelRevision
          case "PARAMETERS" => q.body.parameters != p.body.parameters
          case "SCHEMA" => q.body.schema != p.body.schema
          case "INPUT" => q.body.input != p.body.input
          case _ => false)
    case PermitExpired => Standing(c, p) && q.route == p.route && q.body == p.body && p.expiresAt <= now
    case AlreadyUsed =>
      Standing(c, p) && q.route == p.route && q.body == p.body && now < p.expiresAt && status != Ready
    case _ => false
  }

  lemma {:induction false} RejectionsAreTrue(w: World, p: PermitV1, q: AdmitRequest, now: int)
    requires q.callId == p.callId && p.callId in w.permits && Frozen(w.permits[p.callId], p) && p.callId in w.calls
    ensures var d := AdmitStep(w.calls, w.permits, q, now).0;
            d.Reject? ==> Reason(d.code, w.calls[p.callId], p, q, now, w.permits[p.callId].status)
  {
  }
}
