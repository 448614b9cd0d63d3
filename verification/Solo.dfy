/** A client of the control plane left alone: what a submit, a child dispatch, a prepare or a cancel comes to when nobody
  * interleaves, first as the machine runs it and then as a table of answers over the stored rows. */
module Solo {

  import opened Wrappers
  import opened Identity
  import opened Ledger
  import opened Submission

  // ----- A client left alone -----

  /** How many statements a phase is away from its end, at most. */
  function Remaining(phase: Phase): nat {
    match phase
    case Snapshot(_) => 8
    case Insert(_, _) => 7
    case Reread(_, _, _) => 6
    case Stamp(_, _, _, _) => 5
    case GatePolicy(_, _, _) => 4
    case GateCount(_, _, _, _) => 3
    case Launch(_, _, _) => 2
    case Confirm(_, _, _) => 1
    case PrepareRead(_, _, _) => 4
    case PrepareMark(_, _) => 3
    case PrepareBegin(_, _) => 2
    case PrepareFinish(_, _) => 1
    case CancelRead(_) => 4
    case CancelMark(_, _, _) => 3
    case CancelStop(_, _, _) => 2
    case CancelConfirm(_) => 1
    case CancelRollback(_, _) => 1
    case _ => 0
  }

  /** The tables and the answer once a client ran to its end undisturbed. */
  function Alone(db: Db, phase: Phase, w: World): (Db, Phase)
    decreases Remaining(phase)
  {
    if Final(phase) then (db, phase) else Alone(Apply(db, Issue(phase, w)), Resume(db, phase, w), w)
  }

  lemma AloneStep(db: Db, phase: Phase, w: World)
    requires !Final(phase)
    ensures Alone(db, phase, w) == Alone(Apply(db, Issue(phase, w)), Resume(db, phase, w), w)
  {
  }

  function Advances(client: nat, w: World, n: nat): seq<Event> {
    if n == 0 then [] else [Advance(client, w)] + Advances(client, w, n - 1)
  }

  /** Running alone is a run of the machine: advancing only this client reaches the same tables and answer. */
  lemma {:induction false} AloneIsARun(s: State, client: nat, w: World)
    requires client in s.clients
    ensures var s' := Run(s, Advances(client, w, Remaining(s.clients[client])));
      client in s'.clients && (s'.db, s'.clients[client]) == Alone(s.db, s.clients[client], w)
    decreases Remaining(s.clients[client])
  {
    AloneWithSlack(s, client, w, Remaining(s.clients[client]));
  }

  lemma FinalStays(db: Db, phase: Phase, w: World)
    ensures Final(phase) <==> Remaining(phase) == 0
    ensures Final(phase) ==> Resume(db, phase, w) == phase && Issue(phase, w) == Read
  {
  }

  lemma ResumeIsNearer(db: Db, phase: Phase, w: World)
    requires !Final(phase)
    ensures Remaining(Resume(db, phase, w)) < Remaining(phase)
  {
  }

  lemma AdvanceIsAlone(s: State, client: nat, w: World)
    requires client in s.clients
    ensures var s' := Step(s, Advance(client, w));
      && client in s'.clients
      && Alone(s'.db, s'.clients[client], w) == Alone(s.db, s.clients[client], w)
      && (Remaining(s'.clients[client]) < Remaining(s.clients[client]) || Remaining(s'.clients[client]) == 0)
  {
    var phase := s.clients[client];
    FinalStays(s.db, phase, w);
    if !Final(phase) {
      AloneStep(s.db, phase, w);
      ResumeIsNearer(s.db, phase, w);
    }
  }

  lemma {:induction false} AloneWithSlack(s: State, client: nat, w: World, n: nat)
    requires client in s.clients && Remaining(s.clients[client]) <= n
    ensures var s' := Run(s, Advances(client, w, n));
      client in s'.clients && (s'.db, s'.clients[client]) == Alone(s.db, s.clients[client], w)
    decreases n
  {
    if n > 0 {
      var s1 := Step(s, Advance(client, w));
      AdvanceIsAlone(s, client, w);
      FinalStays(s.db, s.clients[client], w);
      AloneWithSlack(s1, client, w, n - 1);
      assert Advances(client, w, n)[1..] == Advances(client, w, n - 1);
    }
  }

  lemma SnapshotAlone(db: Db, req: Request, w: World)
    ensures Alone(db, Snapshot(req), w) == Alone(db, Insert(req, Some(EffectivePolicy(db, req.id.caller.org, req.saga))), w)
  {
    AloneStep(db, Snapshot(req), w);
  }

  /** The row an insert leaves: the one already there, or the new one. */
  function Reserved(db: Db, req: Request, stamp: Option<Policy>, w: World): Db {
    if req.id in db.executions then db
    else SetRow(db, req.id, NewExecution(req.id, req.saga, req.revision, req.input, w.now, stamp))
  }

  lemma InsertAlone(db: Db, req: Request, stamp: Option<Policy>, w: World)
    ensures Alone(db, Insert(req, stamp), w) == Alone(Reserved(db, req, stamp, w), Reread(req, stamp, req.id !in db.executions), w)
  {
    AloneStep(db, Insert(req, stamp), w);
    assert Apply(db, Issue(Insert(req, stamp), w)) == Reserved(db, req, stamp, w);
  }

  lemma RereadAlone(db: Db, req: Request, stamp: Option<Policy>, created: bool, w: World)
    requires req.id in db.executions
    ensures Alone(db, Reread(req, stamp, created), w) ==
      var row := db.executions[req.id];
      if Mismatch(req, row) then (db, Refused(req, Code(req, "IDEMPOTENCY_CONFLICT", "CHILD_DISPATCH_CONFLICT")))
      else Alone(db, Stamp(req, stamp, created, row), w)
  {
    AloneStep(db, Reread(req, stamp, created), w);
  }

  function Stamped(db: Db, req: Request, stamp: Option<Policy>): Db
    requires req.id in db.executions
  {
    if db.executions[req.id].policy.None? && stamp.Some?
    then SetRow(db, req.id, db.executions[req.id].(policy := stamp))
    else db
  }

  lemma StampAlone(db: Db, req: Request, stamp: Option<Policy>, created: bool, w: World)
    requires req.id in db.executions
    ensures var row := db.executions[req.id];
      Alone(db, Stamp(req, stamp, created, row), w) == Alone(Stamped(db, req, stamp), AfterStamp(req, created, row), w)
  {
    var row := db.executions[req.id];
    AloneStep(db, Stamp(req, stamp, created, row), w);
    assert Apply(db, Issue(Stamp(req, stamp, created, row), w)) == Stamped(db, req, stamp);
  }

  lemma GateAlone(db: Db, req: Request, created: bool, row: Execution, w: World)
    ensures Alone(db, GatePolicy(req, created, row), w) ==
      var policy := EffectivePolicy(db, req.id.caller.org, req.saga);
      if !policy.enabled then (db, Refused(req, "SAGA_PAUSED"))
      else if policy.maxConcurrent > 0 && AdmissionCount(db, req.id.caller.org, req.saga, req.id) >= policy.maxConcurrent
      then (db, Refused(req, "ADMISSION_LIMITED"))
      else Alone(db, Launch(req, created, row), w)
  {
    var limit := EffectivePolicy(db, req.id.caller.org, req.saga).maxConcurrent;
    AloneStep(db, GatePolicy(req, created, row), w);
    AloneStep(db, GateCount(req, created, row, limit), w);
  }

  lemma PrepareAlone(db: Db, id: Id, input: string, w: World)
    ensures Alone(db, PrepareMark(id, input), w) ==
      var running := Apply(db, MarkRunning(id, w.now));
      var begun := Apply(running, BeginOperation(id, "prepare-input-v1", 0, w.now));
      (Apply(begun, FinishOperation(id, "prepare-input-v1", w.now, input)), Prepared(id, input))
  {
    var running := Apply(db, MarkRunning(id, w.now));
    var begun := Apply(running, BeginOperation(id, "prepare-input-v1", 0, w.now));
    AloneStep(db, PrepareMark(id, input), w);
    AloneStep(running, PrepareBegin(id, input), w);
    AloneStep(begun, PrepareFinish(id, input), w);
  }

  lemma ConfirmAlone(marked: Db, id: Id, w: World)
    ensures Alone(marked, CancelConfirm(id), w) == (Apply(marked, ConfirmCancel(id, w.now)), CancelDone(id, true))
  {
    AloneStep(marked, CancelConfirm(id), w);
  }

  lemma RollbackAlone(marked: Db, id: Id, prior: Status, w: World)
    ensures Alone(marked, CancelRollback(id, prior), w) == (Apply(marked, RollBack(id, prior)), CancelDone(id, false))
  {
    AloneStep(marked, CancelRollback(id, prior), w);
  }

  lemma StopAlone(marked: Db, id: Id, prior: Status, dispatched: bool, w: World)
    ensures Alone(marked, CancelStop(id, prior, dispatched), w) ==
      Alone(marked, if ShouldConfirmCancel(w.stop, prior, dispatched) then CancelConfirm(id) else CancelRollback(id, prior), w)
  {
    AloneStep(marked, CancelStop(id, prior, dispatched), w);
  }

  lemma MarkAlone(db: Db, id: Id, prior: Status, dispatched: bool, w: World)
    requires HasStatus(db, id, {Pending, Running})
    ensures Alone(db, CancelMark(id, prior, dispatched), w) == Alone(Apply(db, MarkCancelling(id)), CancelStop(id, prior, dispatched), w)
  {
    AloneStep(db, CancelMark(id, prior, dispatched), w);
  }

  lemma ReadAlone(db: Db, id: Id, w: World)
    ensures Alone(db, CancelRead(id), w) ==
      if HasStatus(db, id, {Pending, Running})
      then Alone(db, CancelMark(id, db.executions[id].status, db.executions[id].dispatched), w)
      else (db, CancelDone(id, false))
  {
    AloneStep(db, CancelRead(id), w);
  }

  predicate GateOpen(db: Db, req: Request) {
    var policy := EffectivePolicy(db, req.id.caller.org, req.saga);
    policy.enabled && (policy.maxConcurrent == 0 || AdmissionCount(db, req.id.caller.org, req.saga, req.id) < policy.maxConcurrent)
  }

  lemma GateSeesOthersOnly(db: Db, id: Id, row: Execution, req: Request)
    requires id in db.executions && SameIdentity(db.executions[id], row) && row.status == db.executions[id].status
    ensures GateOpen(SetRow(db, id, row), req) == GateOpen(db, req)
  {
    assert ActiveOthers(SetRow(db, id, row), req.id.caller.org, req.saga, req.id) == ActiveOthers(db, req.id.caller.org, req.saga, req.id);
  }

  function SetRow(db: Db, id: Id, row: Execution): Db {
    db.(executions := db.executions[id := row])
  }

  /** The same key submitted again over an existing row of the same Saga and input, as after a crash anywhere in the
    * first attempt. It is acknowledged exactly when the row is not cancelled and is either already dispatched or still
    * passes the gate inside its recovery window; then it reports a replay, the row is dispatched and only its own
    * instance can have been added. */
  lemma RetryConverges(db: Db, req: Request, w: World)
    requires req.id.Top? && req.id in db.executions
    requires db.executions[req.id].saga == req.saga && db.executions[req.id].input == req.input
    ensures var row := db.executions[req.id];
      var (db', answer) := Alone(db, Snapshot(req), w);
      && (answer.Submitted? <==>
            && row.status !in {Cancelling, Cancelled}
            && (row.dispatched ||
                (!Paused(db, req) && !Full(db, req) && row.revision == req.revision && w.now < row.createdAt + 900000 && w.launch == Acknowledged)))
      && (answer.Submitted? ==>
            && answer == Submitted(req, true)
            && req.id in db'.executions && db'.executions[req.id] == row.(dispatched := true, policy := db'.executions[req.id].policy)
            && db'.instances == (if row.dispatched then db.instances else db.instances + {req.id}))
  {
    var row := db.executions[req.id];
    var stamped := Stamped(db, req, Some(EffectivePolicy(db, req.id.caller.org, req.saga)));
    GateIsOpen(db, req);
    AloneReaches(db, req, w);
    assert stamped.executions[req.id] == row.(policy := stamped.executions[req.id].policy);
    assert stamped == SetRow(db, req.id, stamped.executions[req.id]);
    GateSeesOthersOnly(db, req.id, stamped.executions[req.id], req);
    if row.status !in {Cancelling, Cancelled} && !row.dispatched {
      GateAlone(stamped, req, false, row, w);
      LaunchAlone(stamped, req, row, w);
    }
  }

  /** The first submit of a key, undisturbed. Its row is inserted whatever happens next; it is acknowledged exactly when
    * the gate is open and createBatch is acknowledged, and then it is no replay, the row is dispatched and its instance
    * is the only new one. */
  lemma FreshSubmit(db: Db, req: Request, w: World)
    requires req.id.Top? && req.id !in db.executions
    ensures var row := NewExecution(req.id, req.saga, req.revision, req.input, w.now, Some(EffectivePolicy(db, req.id.caller.org, req.saga)));
      var (db', answer) := Alone(db, Snapshot(req), w);
      && db'.executions == db.executions[req.id := row.(dispatched := answer.Submitted?)]
      && (answer.Submitted? <==> !Paused(db, req) && !Full(db, req) && w.launch == Acknowledged)
      && (answer.Submitted? ==> answer == Submitted(req, false) && db'.instances == db.instances + {req.id})
  {
    GateIsOpen(db, req);
    var row := NewExecution(req.id, req.saga, req.revision, req.input, w.now, Some(EffectivePolicy(db, req.id.caller.org, req.saga)));
    var inserted := SetRow(db, req.id, row);
    InsertedAlone(db, req, row, w);
    NewRowIsExempt(db, req, row);
    FreshGate(inserted, req, row, w);
    assert inserted.executions == db.executions[req.id := row.(dispatched := false)];
    assert inserted.executions[req.id := inserted.executions[req.id].(dispatched := true)] == db.executions[req.id := row.(dispatched := true)];
  }

  lemma FreshGate(inserted: Db, req: Request, row: Execution, w: World)
    requires req.id.Top? && req.id in inserted.executions && inserted.executions[req.id] == row
    requires row.revision == req.revision && row.createdAt == w.now && !row.dispatched
    ensures var (db', answer) := Alone(inserted, GatePolicy(req, true, row), w);
      && (answer.Submitted? <==> GateOpen(inserted, req) && w.launch == Acknowledged)
      && (answer.Submitted? ==> answer == Submitted(req, false) && db'.instances == inserted.instances + {req.id})
      && db'.executions == (if answer.Submitted? then inserted.executions[req.id := row.(dispatched := true)] else inserted.executions)
  {
    GateAlone(inserted, req, true, row, w);
    FreshLaunch(inserted, req, row, w);
  }

  lemma InsertedAlone(db: Db, req: Request, row: Execution, w: World)
    requires req.id.Top? && req.id !in db.executions
    requires row == NewExecution(req.id, req.saga, req.revision, req.input, w.now, Some(EffectivePolicy(db, req.id.caller.org, req.saga)))
    ensures Alone(db, Snapshot(req), w) == Alone(SetRow(db, req.id, row), GatePolicy(req, true, row), w)
  {
    var stamp := Some(EffectivePolicy(db, req.id.caller.org, req.saga));
    var inserted := SetRow(db, req.id, row);
    SnapshotAlone(db, req, w);
    InsertAlone(db, req, stamp, w);
    RereadAlone(inserted, req, stamp, true, w);
    StampAlone(inserted, req, stamp, true, w);
  }

  lemma NewRowIsExempt(db: Db, req: Request, row: Execution)
    requires req.id !in db.executions
    ensures GateOpen(SetRow(db, req.id, row), req) == GateOpen(db, req)
  {
    assert ActiveOthers(SetRow(db, req.id, row), req.id.caller.org, req.saga, req.id) == ActiveOthers(db, req.id.caller.org, req.saga, req.id);
  }

  lemma FreshLaunch(db: Db, req: Request, row: Execution, w: World)
    requires req.id.Top? && req.id in db.executions && row.revision == req.revision && row.createdAt == w.now
    ensures var (db', answer) := Alone(db, Launch(req, true, row), w);
      && (answer.Submitted? <==> w.launch == Acknowledged)
      && (answer.Submitted? ==> answer == Submitted(req, false) && db'.instances == db.instances + {req.id})
      && db'.executions == (if answer.Submitted? then db.executions[req.id := db.executions[req.id].(dispatched := true)] else db.executions)
  {
    var launched := Apply(db, Issue(Launch(req, true, row), w));
    AloneStep(db, Launch(req, true, row), w);
    AloneStep(launched, Confirm(req, true, row), w);
  }

  lemma AloneReaches(db: Db, req: Request, w: World)
    requires req.id.Top? && req.id in db.executions
    requires db.executions[req.id].saga == req.saga && db.executions[req.id].input == req.input
    ensures Alone(db, Snapshot(req), w) ==
      Alone(Stamped(db, req, Some(EffectivePolicy(db, req.id.caller.org, req.saga))), AfterStamp(req, false, db.executions[req.id]), w)
  {
    var stamp := Some(EffectivePolicy(db, req.id.caller.org, req.saga));
    SnapshotAlone(db, req, w);
    InsertAlone(db, req, stamp, w);
    RereadAlone(db, req, stamp, false, w);
    StampAlone(db, req, stamp, false, w);
  }

  lemma LaunchAlone(db: Db, req: Request, row: Execution, w: World)
    requires req.id.Top? && req.id in db.executions
    ensures var (db', answer) := Alone(db, Launch(req, false, row), w);
      && (answer.Submitted? <==> !RecoveryExpired(req, row, w.now) && w.launch == Acknowledged)
      && (answer.Submitted? ==>
            && answer == Submitted(req, true)
            && db'.executions == db.executions[req.id := db.executions[req.id].(dispatched := true)]
            && db'.instances == db.instances + {req.id})
  {
    var launched := Apply(db, Issue(Launch(req, false, row), w));
    AloneStep(db, Launch(req, false, row), w);
    AloneStep(launched, Confirm(req, false, row), w);
  }

  // ----- The answers, read off the stored rows -----

  /** What the policies table says of the Saga; without a row it is switched on and unbounded. */
  ghost function StoredPolicy(db: Db, req: Request): Policy {
    var key := PolicyKey(req.id.caller.org, req.saga);
    if key in db.policies then db.policies[key] else Policy(true, 0)
  }

  ghost predicate Paused(db: Db, req: Request) {
    !StoredPolicy(db, req).enabled
  }

  /** Other active rows of the same Organization and Saga reach the limit, if there is one. */
  ghost predicate Full(db: Db, req: Request) {
    var others := set id | id in db.executions && id != req.id && db.executions[id].status in {Pending, Running, Cancelling} &&
                           db.executions[id].caller.org == req.id.caller.org && db.executions[id].saga == req.saga;
    StoredPolicy(db, req).maxConcurrent > 0 && |others| >= StoredPolicy(db, req).maxConcurrent
  }

  /** A top-level submit, answered from the tables it finds. */
  ghost function SubmitAnswer(db: Db, req: Request, w: World): Phase {
    if req.id in db.executions then
      var row := db.executions[req.id];
      if row.saga != req.saga || row.input != req.input then Refused(req, "IDEMPOTENCY_CONFLICT")
      else if row.status == Cancelling || row.status == Cancelled then Refused(req, "EXECUTION_CANCELLED")
      else if row.dispatched then Submitted(req, true)
      else if Paused(db, req) then Refused(req, "SAGA_PAUSED")
      else if Full(db, req) then Refused(req, "ADMISSION_LIMITED")
      else if row.revision != req.revision || w.now >= row.createdAt + 900000 then Refused(req, "RECOVERY_EXPIRED")
      else if w.launch == Acknowledged then Submitted(req, true)
      else Refused(req, "DISPATCH_UNCONFIRMED")
    else if Paused(db, req) then Refused(req, "SAGA_PAUSED")
    else if Full(db, req) then Refused(req, "ADMISSION_LIMITED")
    else if w.launch == Acknowledged then Submitted(req, false)
    else Refused(req, "DISPATCH_UNCONFIRMED")
  }

  /** A child dispatch: lineage is compared too, a row is never too old and its revision does not matter, and only a row
    * that was dispatched before counts as a replay. */
  ghost function ChildAnswer(db: Db, req: Request, w: World): Phase
    requires req.id.Child?
  {
    if req.id in db.executions then
      var row := db.executions[req.id];
      if row.saga != req.saga || row.input != req.input || row.parent != Some(req.id.parent) || row.parentStep != Some(req.id.step)
      then Refused(req, "CHILD_DISPATCH_CONFLICT")
      else if row.status == Cancelling || row.status == Cancelled then Refused(req, "CHILD_FAILED")
      else if row.dispatched then Submitted(req, true)
      else if Paused(db, req) then Refused(req, "SAGA_PAUSED")
      else if Full(db, req) then Refused(req, "ADMISSION_LIMITED")
      else if w.launch == Acknowledged then Submitted(req, false)
      else Refused(req, "CHILD_DISPATCH_UNCONFIRMED")
    else if Paused(db, req) then Refused(req, "SAGA_PAUSED")
    else if Full(db, req) then Refused(req, "ADMISSION_LIMITED")
    else if w.launch == Acknowledged then Submitted(req, false)
    else Refused(req, "CHILD_DISPATCH_UNCONFIRMED")
  }

  /** What either leaves in the tables. A missing row is there, Pending and with `stamp`; an existing one keeps everything but
    * its dispatched marker and, without a policy snapshot of its own, that snapshot; nothing else moves. There is a new
    * instance exactly if createBatch was reached and started one. */
  ghost predicate Leaves(db: Db, req: Request, stamp: Option<Policy>, w: World, answer: Phase, db': Db) {
    && db'.operations == db.operations && db'.policies == db.policies
    && db'.executions.Keys == db.executions.Keys + {req.id}
    && (forall id :: id in db.executions && id != req.id ==> db'.executions[id] == db.executions[id])
    && (req.id !in db.executions ==>
          db'.executions[req.id] ==
          Execution(req.saga, req.revision, req.id.caller, req.input, ParentOf(req.id), StepOf(req.id),
                    answer.Submitted?, Pending, w.now, None, None, None, None, stamp))
    && (req.id in db.executions ==>
          var row := db.executions[req.id];
          var conflict := answer.Refused? && answer.code in {"IDEMPOTENCY_CONFLICT", "CHILD_DISPATCH_CONFLICT"};
          db'.executions[req.id] ==
          row.(dispatched := row.dispatched || answer.Submitted?, policy := if conflict || row.policy.Some? then row.policy else stamp))
    && db'.instances == db.instances + (if Starts(db, req, w, answer) then {req.id} else {})
  }

  ghost predicate Starts(db: Db, req: Request, w: World, answer: Phase) {
    if answer.Submitted? then req.id !in db.executions || !db.executions[req.id].dispatched
    else answer.Refused? && answer.code in {"DISPATCH_UNCONFIRMED", "CHILD_DISPATCH_UNCONFIRMED"} && w.launch == ThrownAfterStart
  }

  lemma GateIsOpen(db: Db, req: Request)
    ensures EffectivePolicy(db, req.id.caller.org, req.saga) == StoredPolicy(db, req)
    ensures GateOpen(db, req) <==> !Paused(db, req) && !Full(db, req)
    ensures Full(db, req) <==>
      StoredPolicy(db, req).maxConcurrent > 0 && AdmissionCount(db, req.id.caller.org, req.saga, req.id) >= StoredPolicy(db, req).maxConcurrent
  {
    var others := set id | id in db.executions && id != req.id && db.executions[id].status in {Pending, Running, Cancelling} &&
                           db.executions[id].caller.org == req.id.caller.org && db.executions[id].saga == req.saga;
    assert others == ActiveOthers(db, req.id.caller.org, req.saga, req.id);
  }

  /** The gate does not depend on the row the submitter itself reserved or stamped. */
  lemma GateSeesRest(db: Db, req: Request, row: Execution)
    requires req.id in db.executions ==> SameIdentity(db.executions[req.id], row) && row.status == db.executions[req.id].status
    ensures Paused(SetRow(db, req.id, row), req) == Paused(db, req) && Full(SetRow(db, req.id, row), req) == Full(db, req)
  {
    GateIsOpen(db, req);
    GateIsOpen(SetRow(db, req.id, row), req);
    assert ActiveOthers(SetRow(db, req.id, row), req.id.caller.org, req.saga, req.id) == ActiveOthers(db, req.id.caller.org, req.saga, req.id);
  }

  predicate Expired(req: Request, row: Execution, w: World) {
    req.id.Top? && (row.revision != req.revision || w.now >= row.createdAt + 900000)
  }

  /** The tables once createBatch started an instance or not, and the marker was set or not. */
  function Launched(db: Db, req: Request, started: bool, marked: bool): Db
    requires req.id in db.executions
  {
    var instances := if started then db.instances + {req.id} else db.instances;
    var executions := if marked then db.executions[req.id := db.executions[req.id].(dispatched := true)] else db.executions;
    db.(instances := instances, executions := executions)
  }

  function LaunchAnswer(req: Request, created: bool, row: Execution, w: World): Phase {
    if Expired(req, row, w) then Refused(req, "RECOVERY_EXPIRED")
    else if w.launch == Acknowledged then Submitted(req, if req.id.Top? then !created else row.dispatched)
    else Refused(req, if req.id.Top? then "DISPATCH_UNCONFIRMED" else "CHILD_DISPATCH_UNCONFIRMED")
  }

  lemma LaunchFails(db: Db, req: Request, created: bool, row: Execution, w: World)
    requires req.id in db.executions && (Expired(req, row, w) || w.launch != Acknowledged)
    ensures Alone(db, Launch(req, created, row), w) ==
      (Launched(db, req, !Expired(req, row, w) && w.launch == ThrownAfterStart, false), LaunchAnswer(req, created, row, w))
  {
    AloneStep(db, Launch(req, created, row), w);
    assert Apply(db, Issue(Launch(req, created, row), w)) == Launched(db, req, !Expired(req, row, w) && w.launch == ThrownAfterStart, false);
    assert Resume(db, Launch(req, created, row), w) == LaunchAnswer(req, created, row, w);
  }

  lemma LaunchSucceeds(db: Db, req: Request, created: bool, row: Execution, w: World)
    requires req.id in db.executions && !Expired(req, row, w) && w.launch == Acknowledged
    ensures Alone(db, Launch(req, created, row), w) == (Launched(db, req, true, true), LaunchAnswer(req, created, row, w))
  {
    var launched := Apply(db, Issue(Launch(req, created, row), w));
    AloneStep(db, Launch(req, created, row), w);
    AloneStep(launched, Confirm(req, created, row), w);
    assert Apply(launched, MarkDispatched(req.id)) == Launched(db, req, true, true);
  }

  /** From the recovery window on, with the window written out. */
  lemma LaunchTable(db: Db, req: Request, created: bool, row: Execution, w: World)
    requires req.id in db.executions
    ensures var answer := LaunchAnswer(req, created, row, w);
      Alone(db, Launch(req, created, row), w) ==
      (Launched(db, req, !Expired(req, row, w) && w.launch != ThrownBeforeStart, answer.Submitted?), answer)
  {
    if Expired(req, row, w) || w.launch != Acknowledged {
      LaunchFails(db, req, created, row, w);
    } else {
      LaunchSucceeds(db, req, created, row, w);
    }
  }

  /** From the gate on. */
  lemma GateTable(db: Db, req: Request, created: bool, row: Execution, w: World)
    requires req.id in db.executions
    ensures Alone(db, GatePolicy(req, created, row), w) ==
      if Paused(db, req) then (db, Refused(req, "SAGA_PAUSED"))
      else if Full(db, req) then (db, Refused(req, "ADMISSION_LIMITED"))
      else Alone(db, Launch(req, created, row), w)
  {
    GateIsOpen(db, req);
    GateAlone(db, req, created, row, w);
  }

  /** A row that is there, its own policy snapshot aside. */
  lemma SeenTable(db: Db, req: Request, stamp: Option<Policy>, created: bool, w: World)
    requires req.id in db.executions
    ensures var row := db.executions[req.id];
      Alone(db, Reread(req, stamp, created), w) ==
      if Mismatch(req, row) then (db, Refused(req, Code(req, "IDEMPOTENCY_CONFLICT", "CHILD_DISPATCH_CONFLICT")))
      else Alone(Stamped(db, req, stamp), AfterStamp(req, created, row), w)
  {
    RereadAlone(db, req, stamp, created, w);
    if !Mismatch(req, db.executions[req.id]) {
      StampAlone(db, req, stamp, created, w);
    }
  }

  /** The whole answer of an undisturbed top-level submit, first or repeated. */
  lemma SubmitTable(db: Db, req: Request, w: World)
    requires req.id.Top?
    ensures var (db', answer) := Alone(db, Snapshot(req), w);
      answer == SubmitAnswer(db, req, w) && Leaves(db, req, Some(StoredPolicy(db, req)), w, answer, db')
  {
    var stamp := Some(StoredPolicy(db, req));
    GateIsOpen(db, req);
    SnapshotAlone(db, req, w);
    InsertAlone(db, req, stamp, w);
    ReservedTable(db, req, stamp, w);
  }

  /** The whole answer of an undisturbed child dispatch, first or repeated. */
  lemma ChildTable(db: Db, req: Request, w: World)
    requires req.id.Child?
    ensures var (db', answer) := Alone(db, Insert(req, None), w);
      answer == ChildAnswer(db, req, w) && Leaves(db, req, None, w, answer, db')
  {
    InsertAlone(db, req, None, w);
    ReservedTable(db, req, None, w);
  }

  ghost function Answer(db: Db, req: Request, w: World): Phase {
    if req.id.Top? then SubmitAnswer(db, req, w) else ChildAnswer(db, req, w)
  }

  lemma ReservedTable(db: Db, req: Request, stamp: Option<Policy>, w: World)
    ensures var (db', answer) := Alone(Reserved(db, req, stamp, w), Reread(req, stamp, req.id !in db.executions), w);
      answer == Answer(db, req, w) && Leaves(db, req, stamp, w, answer, db')
  {
    var reserved := Reserved(db, req, stamp, w);
    var row := reserved.executions[req.id];
    SeenTable(reserved, req, stamp, req.id !in db.executions, w);
    if Mismatch(req, row) {
      KeptByConflict(db, req, stamp, w);
    } else if row.status in {Cancelling, Cancelled} || row.dispatched {
      LeftAt(db, req, stamp, w, false, false);
    } else {
      GatedTable(db, req, stamp, w);
      LeftAt(db, req, stamp, w, Starts(db, req, w, Answer(db, req, w)), Answer(db, req, w).Submitted?);
    }
  }

  /** A new row matches its request. */
  lemma KeptByConflict(db: Db, req: Request, stamp: Option<Policy>, w: World)
    requires Mismatch(req, Reserved(db, req, stamp, w).executions[req.id])
    ensures Answer(db, req, w) == Refused(req, Code(req, "IDEMPOTENCY_CONFLICT", "CHILD_DISPATCH_CONFLICT"))
    ensures Leaves(db, req, stamp, w, Answer(db, req, w), Reserved(db, req, stamp, w))
  {
    assert req.id in db.executions;
  }

  /** The row that goes on, stamped and perhaps launched. */
  lemma LeftAt(db: Db, req: Request, stamp: Option<Policy>, w: World, started: bool, marked: bool)
    requires !Mismatch(req, Reserved(db, req, stamp, w).executions[req.id])
    requires marked == (Answer(db, req, w).Submitted? && !Reserved(db, req, stamp, w).executions[req.id].dispatched)
    requires started == Starts(db, req, w, Answer(db, req, w))
    ensures Leaves(db, req, stamp, w, Answer(db, req, w), Launched(Stamped(Reserved(db, req, stamp, w), req, stamp), req, started, marked))
  {
    if req.id in db.executions {
      FoundAt(db, req, stamp, started, marked);
    } else {
      NewAt(db, req, stamp, w, started, marked);
    }
  }

  lemma NewAt(db: Db, req: Request, stamp: Option<Policy>, w: World, started: bool, marked: bool)
    requires req.id !in db.executions
    ensures var db' := Launched(Stamped(Reserved(db, req, stamp, w), req, stamp), req, started, marked);
      && db'.operations == db.operations && db'.policies == db.policies
      && db'.instances == db.instances + (if started then {req.id} else {})
      && db'.executions ==
         db.executions[req.id := Execution(req.saga, req.revision, req.id.caller, req.input, ParentOf(req.id), StepOf(req.id),
                                           marked, Pending, w.now, None, None, None, None, stamp)]
  {
    var reserved := Reserved(db, req, stamp, w);
    assert Stamped(reserved, req, stamp).executions == reserved.executions;
  }

  lemma FoundAt(db: Db, req: Request, stamp: Option<Policy>, started: bool, marked: bool)
    requires req.id in db.executions
    ensures var db', row := Launched(Stamped(db, req, stamp), req, started, marked), db.executions[req.id];
      && db'.operations == db.operations && db'.policies == db.policies
      && db'.instances == db.instances + (if started then {req.id} else {})
      && db'.executions ==
         db.executions[req.id := row.(dispatched := row.dispatched || marked, policy := if row.policy.Some? then row.policy else stamp)]
  {
  }

  lemma PastGate(db: Db, req: Request, stamp: Option<Policy>, w: World)
    requires var row := Reserved(db, req, stamp, w).executions[req.id];
      !Mismatch(req, row) && row.status !in {Cancelling, Cancelled} && !row.dispatched
    ensures Answer(db, req, w) ==
      if Paused(db, req) then Refused(req, "SAGA_PAUSED")
      else if Full(db, req) then Refused(req, "ADMISSION_LIMITED")
      else LaunchAnswer(req, req.id !in db.executions, Reserved(db, req, stamp, w).executions[req.id], w)
  {
  }

  lemma GatedTable(db: Db, req: Request, stamp: Option<Policy>, w: World)
    requires var row := Reserved(db, req, stamp, w).executions[req.id];
      !Mismatch(req, row) && row.status !in {Cancelling, Cancelled} && !row.dispatched
    ensures var reserved := Reserved(db, req, stamp, w);
      var answer := Answer(db, req, w);
      Alone(Stamped(reserved, req, stamp), GatePolicy(req, req.id !in db.executions, reserved.executions[req.id]), w) ==
      (Launched(Stamped(reserved, req, stamp), req, Starts(db, req, w, answer), answer.Submitted?), answer)
  {
    var reserved, created := Reserved(db, req, stamp, w), req.id !in db.executions;
    var row, stamped := reserved.executions[req.id], Stamped(reserved, req, stamp);
    GateSeesRest(db, req, stamped.executions[req.id]);
    assert stamped == SetRow(db, req.id, stamped.executions[req.id]);
    GateTable(stamped, req, created, row, w);
    PastGate(db, req, stamp, w);
    if !Paused(db, req) && !Full(db, req) {
      LaunchTable(stamped, req, created, row, w);
    }
  }

}
