/** The clients of the ledger as a state machine: any number of submitters, child dispatchers, Workflow runs and
  * cancellers, each advancing one statement at a time in any interleaving, and each free to crash anywhere. */
module Submission {

  import opened Wrappers
  import opened Identity
  import opened Ledger

  const RECOVERY_WINDOW_MS := 15 * 60 * 1000

  /** One submit or child dispatch. The id is derived from the caller and key before any row is touched. */
  datatype Request = Request(id: Id, saga: string, revision: string, input: string)

  predicate RequestOk(req: Request) {
    req.id.Child? ==> req.saga == req.id.saga
  }

  datatype TerminateOutcome = Stopped | AlreadySettled | NotFound | Ambiguous

  /** How a createBatch call ends: acknowledged, thrown after the instance started, or thrown before. */
  datatype LaunchOutcome = Acknowledged | ThrownAfterStart | ThrownBeforeStart

  /** The answers of the outside world to one step: the wall clock, createBatch and terminate. */
  datatype World = World(now: int, launch: LaunchOutcome, stop: TerminateOutcome)

  /** A client's program counter together with its local variables. */
  datatype Phase =
    | Snapshot(req: Request)
    | Insert(req: Request, stamp: Option<Policy>)
    | Reread(req: Request, stamp: Option<Policy>, created: bool)
    | Stamp(req: Request, stamp: Option<Policy>, created: bool, seen: Execution)
    | GatePolicy(req: Request, created: bool, seen: Execution)
    | GateCount(req: Request, created: bool, seen: Execution, limit: nat)
    | Launch(req: Request, created: bool, seen: Execution)
    | Confirm(req: Request, created: bool, seen: Execution)
    | Submitted(req: Request, replayed: bool)
    | Refused(req: Request, code: string)
    | PrepareRead(id: Id, saga: string, revision: string)
    | PrepareMark(id: Id, input: string)
    | PrepareBegin(id: Id, input: string)
    | PrepareFinish(id: Id, input: string)
    | Prepared(id: Id, input: string)
    | PrepareFailed(id: Id)
    | CancelRead(id: Id)
    | CancelMark(id: Id, prior: Status, dispatched: bool)
    | CancelStop(id: Id, prior: Status, dispatched: bool)
    | CancelConfirm(id: Id)
    | CancelRollback(id: Id, prior: Status)
    | CancelDone(id: Id, confirmed: bool)

  predicate Final(phase: Phase) {
    phase.Submitted? || phase.Refused? || phase.Prepared? || phase.PrepareFailed? || phase.CancelDone?
  }

  // ----- Admission -----

  function EffectivePolicy(db: Db, org: string, saga: string): Policy {
    var key := PolicyKey(org, saga);
    if key in db.policies then db.policies[key] else DEFAULT_POLICY
  }

  /** The rows the admission count sees: active, same Organization and Saga, other than the caller's own. */
  function ActiveOthers(db: Db, org: string, saga: string, self: Id): set<Id> {
    set id | id in db.executions && id != self && IsActive(db.executions[id].status) &&
             db.executions[id].caller.org == org && db.executions[id].saga == saga
  }

  function AdmissionCount(db: Db, org: string, saga: string, self: Id): nat {
    |ActiveOthers(db, org, saga, self)|
  }

  predicate ShouldConfirmCancel(outcome: TerminateOutcome, prior: Status, dispatched: bool) {
    || outcome == Stopped
    || outcome == AlreadySettled
    || (outcome == NotFound && prior == Pending && !dispatched)
  }

  predicate RecoveryExpired(req: Request, seen: Execution, now: int) {
    req.id.Top? && (seen.revision != req.revision || now - seen.createdAt >= RECOVERY_WINDOW_MS)
  }

  // ----- One client step -----

  /** The statement a client issues from its current phase. */
  function Issue(phase: Phase, w: World): Statement {
    match phase
    case Insert(req, stamp) => InsertExecution(req.id, NewExecution(req.id, req.saga, req.revision, req.input, w.now, stamp))
    case Stamp(req, stamp, _, seen) => if seen.policy.None? && stamp.Some? then StampPolicy(req.id, stamp.value) else Read
    case Launch(req, _, seen) =>
      if RecoveryExpired(req, seen, w.now) || w.launch == ThrownBeforeStart then Read else CreateInstance(req.id)
    case Confirm(req, _, _) => MarkDispatched(req.id)
    case PrepareMark(id, _) => MarkRunning(id, w.now)
    case PrepareBegin(id, _) => BeginOperation(id, "prepare-input-v1", 0, w.now)
    case PrepareFinish(id, input) => FinishOperation(id, "prepare-input-v1", w.now, input)
    case CancelMark(id, _, _) => MarkCancelling(id)
    case CancelConfirm(id) => ConfirmCancel(id, w.now)
    case CancelRollback(id, prior) => RollBack(id, prior)
    case _ => Read
  }

  /** A top-level submit reports a replay when its insert found a row; a child dispatch, when the row was dispatched. */
  function Replayed(req: Request, created: bool, seen: Execution): bool {
    if req.id.Top? then !created else seen.dispatched
  }

  /** The two paths refuse the same things under their own codes. */
  function Code(req: Request, top: string, child: string): string {
    if req.id.Top? then top else child
  }

  /** The row found under a submitter's own id is another submission: other work or, for a child, other lineage. */
  predicate Mismatch(req: Request, row: Execution) {
    || row.saga != req.saga || row.input != req.input
    || (req.id.Child? && (row.parent != Some(req.id.parent) || row.parentStep != Some(req.id.step)))
  }

  /** The row a submitter found under its own id decides what happens before dispatch. */
  function AfterStamp(req: Request, created: bool, seen: Execution): Phase {
    if seen.status == Cancelling || seen.status == Cancelled then Refused(req, Code(req, "EXECUTION_CANCELLED", "CHILD_FAILED"))
    else if seen.dispatched then Submitted(req, Replayed(req, created, seen))
    else GatePolicy(req, created, seen)
  }

  /** Where the client continues once its statement ran against `db`. */
  function Resume(db: Db, phase: Phase, w: World): Phase {
    match phase
    case Snapshot(req) => Insert(req, Some(EffectivePolicy(db, req.id.caller.org, req.saga)))
    case Insert(req, stamp) => Reread(req, stamp, req.id !in db.executions)
    case Reread(req, stamp, created) =>
      if req.id !in db.executions then Refused(req, "EXECUTION_NOT_FOUND")
      else
        var seen := db.executions[req.id];
        if Mismatch(req, seen) then Refused(req, Code(req, "IDEMPOTENCY_CONFLICT", "CHILD_DISPATCH_CONFLICT"))
        else Stamp(req, stamp, created, seen)
    case Stamp(req, _, created, seen) => AfterStamp(req, created, seen)
    case GatePolicy(req, created, seen) =>
      var policy := EffectivePolicy(db, req.id.caller.org, req.saga);
      if !policy.enabled then Refused(req, "SAGA_PAUSED")
      else if policy.maxConcurrent > 0 then GateCount(req, created, seen, policy.maxConcurrent)
      else Launch(req, created, seen)
    case GateCount(req, created, seen, limit) =>
      if AdmissionCount(db, req.id.caller.org, req.saga, req.id) >= limit then Refused(req, "ADMISSION_LIMITED")
      else Launch(req, created, seen)
    case Launch(req, created, seen) =>
      if RecoveryExpired(req, seen, w.now) then Refused(req, "RECOVERY_EXPIRED")
      else if w.launch == Acknowledged then Confirm(req, created, seen)
      else Refused(req, Code(req, "DISPATCH_UNCONFIRMED", "CHILD_DISPATCH_UNCONFIRMED"))
    case Confirm(req, created, seen) => Submitted(req, Replayed(req, created, seen))
    case PrepareRead(id, saga, revision) =>
      if id !in db.executions then PrepareFailed(id)
      else
        var row := db.executions[id];
        if row.saga != saga || row.revision != revision || row.status == Cancelling || row.status == Cancelled
        then PrepareFailed(id)
        else PrepareMark(id, row.input)
    case PrepareMark(id, input) => PrepareBegin(id, input)
    case PrepareBegin(id, input) => PrepareFinish(id, input)
    case PrepareFinish(id, input) => Prepared(id, input)
    case CancelRead(id) =>
      if HasStatus(db, id, {Pending, Running})
      then CancelMark(id, db.executions[id].status, db.executions[id].dispatched)
      else CancelDone(id, false)
    case CancelMark(id, prior, dispatched) =>
      if HasStatus(db, id, {Pending, Running}) then CancelStop(id, prior, dispatched) else CancelDone(id, false)
    case CancelStop(id, prior, dispatched) =>
      if ShouldConfirmCancel(w.stop, prior, dispatched) then CancelConfirm(id) else CancelRollback(id, prior)
    case CancelConfirm(id) => CancelDone(id, true)
    case CancelRollback(id, _) => CancelDone(id, false)
    case _ => phase
  }

  /** True when this step takes a submitter through the dispatch gate. */
  predicate PassesGate(db: Db, phase: Phase, w: World) {
    (phase.GatePolicy? || phase.GateCount?) && Resume(db, phase, w).Launch?
  }

  // ----- The system -----

  /** `admitted` records the ids that ever passed the dispatch gate; no client reads it. */
  datatype State = State(db: Db, clients: map<nat, Phase>, admitted: set<Id>)

  datatype Event =
    | BeginSubmit(client: nat, req: Request)
    | BeginPrepare(client: nat, id: Id, saga: string, revision: string)
    | BeginCancel(client: nat, id: Id)
    | Advance(client: nat, w: World)
    | Crash(client: nat)
    | Succeed(id: Id, now: int, output: string)
    | Fail(id: Id, now: int, error: SafeError)
    | StartOperation(id: Id, name: string, position: nat, now: int)
    | EndOperation(id: Id, name: string, now: int, output: string)
    | Configure(key: PolicyKey, policy: Policy)

  const INITIAL := State(EMPTY, map[], {})

  /** A child is only ever dispatched by a running parent, so the parent's row already exists. */
  predicate MayBegin(s: State, req: Request) {
    RequestOk(req) && (req.id.Child? ==> req.id.parent in s.db.executions)
  }

  function FirstPhase(req: Request): Phase {
    if req.id.Top? then Snapshot(req) else Insert(req, None)
  }

  /** The single statement an event commits. Checkpoints come from started Workflow instances only. */
  function StatementOf(s: State, e: Event): Statement {
    match e
    case Advance(client, w) => if client in s.clients then Issue(s.clients[client], w) else Read
    case Succeed(id, now, output) => if id in s.db.instances then MarkSucceeded(id, now, output) else Read
    case Fail(id, now, error) =>
      if id in s.db.instances then FailBatch(id, now, error, if IsTimeoutError(error) then TimedOut else Failed) else Read
    case StartOperation(id, name, position, now) =>
      if id in s.db.instances then BeginOperation(id, name, position, now) else Read
    case EndOperation(id, name, now, output) =>
      if id in s.db.instances then FinishOperation(id, name, now, output) else Read
    case Configure(key, policy) => StorePolicy(key, policy)
    case _ => Read
  }

  function ClientsAfter(s: State, e: Event): map<nat, Phase> {
    match e
    case BeginSubmit(client, req) =>
      if client !in s.clients && MayBegin(s, req) then s.clients[client := FirstPhase(req)] else s.clients
    case BeginPrepare(client, id, saga, revision) =>
      if client !in s.clients && id in s.db.instances then s.clients[client := PrepareRead(id, saga, revision)] else s.clients
    case BeginCancel(client, id) =>
      if client !in s.clients then s.clients[client := CancelRead(id)] else s.clients
    case Advance(client, w) =>
      if client in s.clients then s.clients[client := Resume(s.db, s.clients[client], w)] else s.clients
    case Crash(client) => if client in s.clients && !Final(s.clients[client]) then s.clients - {client} else s.clients
    case _ => s.clients
  }

  function AdmittedAfter(s: State, e: Event): set<Id> {
    if e.Advance? && e.client in s.clients && PassesGate(s.db, s.clients[e.client], e.w)
    then s.admitted + {s.clients[e.client].req.id}
    else s.admitted
  }

  function Step(s: State, e: Event): State {
    State(Apply(s.db, StatementOf(s, e)), ClientsAfter(s, e), AdmittedAfter(s, e))
  }

  /** A submit or child dispatch begins at its first statement under a free number, and a crash ends a client that has no
    * answer yet. */
  lemma ComesAndGoes(s: State, client: nat, req: Request)
    requires req.id.Child? ==> req.saga == req.id.saga && req.id.parent in s.db.executions
    ensures client !in s.clients ==>
      Step(s, BeginSubmit(client, req)) == s.(clients := s.clients[client := if req.id.Top? then Snapshot(req) else Insert(req, None)])
    ensures client in s.clients ==>
      var phase := s.clients[client];
      var answered := phase.Submitted? || phase.Refused? || phase.Prepared? || phase.PrepareFailed? || phase.CancelDone?;
      Step(s, Crash(client)) == if answered then s else s.(clients := s.clients - {client})
  {
  }

  /** A prepare begins for a started instance, a cancel for any id, each under a free number. */
  lemma OthersBegin(s: State, client: nat, id: Id, saga: string, revision: string)
    ensures Step(s, BeginPrepare(client, id, saga, revision)) ==
      if client !in s.clients && id in s.db.instances then s.(clients := s.clients[client := PrepareRead(id, saga, revision)]) else s
    ensures Step(s, BeginCancel(client, id)) == if client !in s.clients then s.(clients := s.clients[client := CancelRead(id)]) else s
  {
  }

  /** The outcome of a run comes from a started instance. */
  lemma OutcomesExactly(s: State, id: Id, now: int, output: string, error: SafeError)
    ensures Step(s, Succeed(id, now, output)) == if id in s.db.instances then s.(db := Apply(s.db, MarkSucceeded(id, now, output))) else s
    ensures Step(s, Fail(id, now, error)) ==
      if id in s.db.instances then s.(db := Apply(s.db, FailBatch(id, now, error, if EndsWith(error.code, "_VENDOR_TIMEOUT") then TimedOut else Failed)))
      else s
  {
  }

  /** And so do its Operations; a policy is stored by whoever sets it. */
  lemma OperationsExactly(s: State, id: Id, name: string, position: nat, now: int, output: string, key: PolicyKey, policy: Policy)
    ensures Step(s, StartOperation(id, name, position, now)) ==
      if id in s.db.instances then s.(db := Apply(s.db, BeginOperation(id, name, position, now))) else s
    ensures Step(s, EndOperation(id, name, now, output)) ==
      if id in s.db.instances then s.(db := Apply(s.db, FinishOperation(id, name, now, output))) else s
    ensures Step(s, Configure(key, policy)) == s.(db := s.db.(policies := s.db.policies[key := policy]))
  {
  }

  function Run(s: State, es: seq<Event>): State
    decreases |es|
  {
    if |es| == 0 then s else Run(Step(s, es[0]), es[1..])
  }

}
