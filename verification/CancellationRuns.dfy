/** Runs in which cancellation goes wrong: rollbacks that do not restore, and a dispatch after a confirmed cancel. */
module CancellationRuns {

  import opened Wrappers
  import opened Identity
  import opened Ledger
  import opened Submission
  import opened SubmissionSafety

  // ----- A stale rollback -----

  const CALLER := Principal("org", "user")
  const REQUEST := Request(Top(CALLER, "key"), "saga", "v1", "{}")
  const QUIET := World(0, Acknowledged, Ambiguous)

  function Advances(client: nat, n: nat): seq<Event> {
    if n == 0 then [] else [Advance(client, QUIET)] + Advances(client, n - 1)
  }

  /** Submit and dispatch; a canceller reads Pending; the Workflow prepares; the canceller marks, gets an ambiguous
    * terminate answer and rolls back. */
  const STALE_ROLLBACK: seq<Event> :=
    [BeginSubmit(0, REQUEST)] + Advances(0, 7) +
    [BeginCancel(1, REQUEST.id)] + Advances(1, 1) +
    [BeginPrepare(2, REQUEST.id, "saga", "v1")] + Advances(2, 4) +
    Advances(1, 3)

  /** Advancing one client n times, without building the event list. */
  function Drive(s: State, client: nat, n: nat): State
    decreases n
  {
    if n == 0 then s else Drive(Step(s, Advance(client, QUIET)), client, n - 1)
  }

  lemma {:induction false} DriveIsRun(s: State, client: nat, n: nat)
    ensures Run(s, Advances(client, n)) == Drive(s, client, n)
    decreases n
  {
    if n > 0 {
      DriveIsRun(Step(s, Advance(client, QUIET)), client, n - 1);
      assert Advances(client, n)[1..] == Advances(client, n - 1);
    }
  }

  lemma {:induction false} DriveSplit(s: State, client: nat, m: nat, n: nat)
    ensures Drive(s, client, m + n) == Drive(Drive(s, client, m), client, n)
    decreases m
  {
    if m > 0 {
      DriveSplit(Step(s, Advance(client, QUIET)), client, m - 1, n);
    }
  }

  /** The part of a state the run below is about: one row, its instance, and where the clients stand. */
  ghost predicate At(s: State, status: Status, dispatched: bool, clients: map<nat, Phase>) {
    && REQUEST.id in s.db.executions && REQUEST.id in s.db.instances
    && s.db.executions[REQUEST.id].saga == "saga" && s.db.executions[REQUEST.id].revision == "v1"
    && s.db.executions[REQUEST.id].input == "{}"
    && s.db.executions[REQUEST.id].status == status && s.db.executions[REQUEST.id].dispatched == dispatched
    && s.clients == clients
  }

  const ROW := NewExecution(REQUEST.id, "saga", "v1", "{}", 0, Some(DEFAULT_POLICY))
  const RESERVED := State(Db(map[REQUEST.id := ROW], map[], map[], {}), map[0 := GatePolicy(REQUEST, true, ROW)], {})

  lemma ReservePhase()
    ensures Drive(Step(INITIAL, BeginSubmit(0, REQUEST)), 0, 4) == RESERVED
  {
    var s0 := Step(INITIAL, BeginSubmit(0, REQUEST));
    var s1 := Step(s0, Advance(0, QUIET));
    assert s1 == State(EMPTY, map[0 := Insert(REQUEST, Some(DEFAULT_POLICY))], {});
    var s2 := Step(s1, Advance(0, QUIET));
    assert s2 == RESERVED.(clients := map[0 := Reread(REQUEST, Some(DEFAULT_POLICY), true)]);
    var s3 := Step(s2, Advance(0, QUIET));
    assert s3 == RESERVED.(clients := map[0 := Stamp(REQUEST, Some(DEFAULT_POLICY), true, ROW)]);
    assert Drive(s0, 0, 4) == Drive(s2, 0, 2) == Step(s3, Advance(0, QUIET));
  }

  lemma DispatchPhase()
    ensures At(Drive(RESERVED, 0, 3), Pending, true, map[0 := Submitted(REQUEST, false)])
  {
    var s1 := Step(RESERVED, Advance(0, QUIET));
    assert s1 == RESERVED.(clients := map[0 := Launch(REQUEST, true, ROW)], admitted := {REQUEST.id});
    var s2 := Step(s1, Advance(0, QUIET));
    assert s2 == s1.(db := s1.db.(instances := {REQUEST.id}), clients := map[0 := Confirm(REQUEST, true, ROW)]);
    assert Drive(RESERVED, 0, 3) == Drive(s2, 0, 1) == Step(s2, Advance(0, QUIET));
  }

  lemma ReadPhase(s: State)
    requires At(s, Pending, true, map[0 := Submitted(REQUEST, false)])
    ensures At(Drive(Step(s, BeginCancel(1, REQUEST.id)), 1, 1), Pending, true,
               map[0 := Submitted(REQUEST, false), 1 := CancelMark(REQUEST.id, Pending, true)])
  {
    var s0 := Step(s, BeginCancel(1, REQUEST.id));
    assert Drive(s0, 1, 1) == Step(s0, Advance(1, QUIET));
  }

  /** Where clients 0, 1 and 2 stand once the canceller has read Pending. */
  function Clients(canceller: Phase, workflow: Phase): map<nat, Phase> {
    map[0 := Submitted(REQUEST, false), 1 := canceller, 2 := workflow]
  }

  lemma WorkflowStep(s: State, status: Status, canceller: Phase, phase: Phase, next: Phase)
    requires At(s, status, true, Clients(canceller, phase))
    requires phase in {PrepareMark(REQUEST.id, "{}"), PrepareBegin(REQUEST.id, "{}"), PrepareFinish(REQUEST.id, "{}")}
    requires next == Resume(s.db, phase, QUIET)
    ensures At(Step(s, Advance(2, QUIET)), if phase.PrepareMark? && status == Pending then Running else status, true, Clients(canceller, next))
  {
  }

  lemma WorkflowReads(s: State)
    requires At(s, Pending, true, map[0 := Submitted(REQUEST, false), 1 := CancelMark(REQUEST.id, Pending, true)])
    ensures At(Step(Step(s, BeginPrepare(2, REQUEST.id, "saga", "v1")), Advance(2, QUIET)), Pending, true,
               Clients(CancelMark(REQUEST.id, Pending, true), PrepareMark(REQUEST.id, "{}")))
  {
  }

  lemma TwoSteps(s: State, client: nat)
    ensures Drive(s, client, 1) == Step(s, Advance(client, QUIET))
    ensures Drive(s, client, 2) == Step(Step(s, Advance(client, QUIET)), Advance(client, QUIET))
  {
    assert Drive(Step(s, Advance(client, QUIET)), client, 1) == Step(Step(s, Advance(client, QUIET)), Advance(client, QUIET));
  }

  lemma PrepareStarts(s: State)
    requires At(s, Pending, true, map[0 := Submitted(REQUEST, false), 1 := CancelMark(REQUEST.id, Pending, true)])
    ensures At(Drive(Step(s, BeginPrepare(2, REQUEST.id, "saga", "v1")), 2, 2), Running, true,
               Clients(CancelMark(REQUEST.id, Pending, true), PrepareBegin(REQUEST.id, "{}")))
  {
    var s0 := Step(s, BeginPrepare(2, REQUEST.id, "saga", "v1"));
    WorkflowReads(s);
    assert Resume(Step(s0, Advance(2, QUIET)).db, PrepareMark(REQUEST.id, "{}"), QUIET) == PrepareBegin(REQUEST.id, "{}");
    WorkflowStep(Step(s0, Advance(2, QUIET)), Pending, CancelMark(REQUEST.id, Pending, true), PrepareMark(REQUEST.id, "{}"), PrepareBegin(REQUEST.id, "{}"));
    TwoSteps(s0, 2);
  }

  lemma PrepareEnds(s: State)
    requires At(s, Running, true, Clients(CancelMark(REQUEST.id, Pending, true), PrepareBegin(REQUEST.id, "{}")))
    ensures At(Drive(s, 2, 2), Running, true, Clients(CancelMark(REQUEST.id, Pending, true), Prepared(REQUEST.id, "{}")))
  {
    var canceller := CancelMark(REQUEST.id, Pending, true);
    WorkflowStep(s, Running, canceller, PrepareBegin(REQUEST.id, "{}"), PrepareFinish(REQUEST.id, "{}"));
    WorkflowStep(Step(s, Advance(2, QUIET)), Running, canceller, PrepareFinish(REQUEST.id, "{}"), Prepared(REQUEST.id, "{}"));
    TwoSteps(s, 2);
  }

  lemma PreparePhase(s: State)
    requires At(s, Pending, true, map[0 := Submitted(REQUEST, false), 1 := CancelMark(REQUEST.id, Pending, true)])
    ensures At(Drive(Step(s, BeginPrepare(2, REQUEST.id, "saga", "v1")), 2, 4), Running, true,
               Clients(CancelMark(REQUEST.id, Pending, true), Prepared(REQUEST.id, "{}")))
  {
    var s0 := Step(s, BeginPrepare(2, REQUEST.id, "saga", "v1"));
    PrepareStarts(s);
    PrepareEnds(Drive(s0, 2, 2));
    DriveSplit(s0, 2, 2, 2);
  }

  /** A canceller's next phase when terminate answers ambiguously. */
  function NextCancel(phase: Phase): Phase {
    match phase
    case CancelMark(id, prior, dispatched) => CancelStop(id, prior, dispatched)
    case CancelStop(id, prior, _) => CancelRollback(id, prior)
    case CancelRollback(id, _) => CancelDone(id, false)
    case _ => phase
  }

  lemma CancellerStep(s: State, c: nat, status: Status, prior: Status, clients: map<nat, Phase>)
    requires At(s, status, true, clients) && c in clients && (prior == Pending || prior == Running)
    requires || (clients[c] == CancelMark(REQUEST.id, prior, true) && (status == Pending || status == Running))
             || (clients[c] in {CancelStop(REQUEST.id, prior, true), CancelRollback(REQUEST.id, prior)} && status == Cancelling)
    ensures At(Step(s, Advance(c, QUIET)), if clients[c].CancelRollback? then prior else Cancelling, true, clients[c := NextCancel(clients[c])])
  {
  }

  lemma RollbackStarts(s: State, c: nat, status: Status, prior: Status, clients: map<nat, Phase>)
    requires At(s, status, true, clients) && status in {Pending, Running} && prior in {Pending, Running}
    requires c in clients && clients[c] == CancelMark(REQUEST.id, prior, true)
    ensures At(Drive(s, c, 1), Cancelling, true, clients[c := CancelStop(REQUEST.id, prior, true)])
  {
    CancellerStep(s, c, status, prior, clients);
    TwoSteps(s, c);
  }

  lemma RollbackEnds(s: State, c: nat, prior: Status, clients: map<nat, Phase>)
    requires At(s, Cancelling, true, clients) && prior in {Pending, Running}
    requires c in clients && clients[c] == CancelStop(REQUEST.id, prior, true)
    ensures At(Drive(s, c, 2), prior, true, clients[c := CancelDone(REQUEST.id, false)])
  {
    CancellerStep(s, c, Cancelling, prior, clients);
    var clients' := clients[c := CancelRollback(REQUEST.id, prior)];
    CancellerStep(Step(s, Advance(c, QUIET)), c, Cancelling, prior, clients');
    assert clients'[c := CancelDone(REQUEST.id, false)] == clients[c := CancelDone(REQUEST.id, false)];
    TwoSteps(s, c);
  }

  /** A cancel with an ambiguous stop leaves what its canceller read, whatever the marker replaced. */
  lemma RollbackPhase(s: State, c: nat, status: Status, prior: Status, clients: map<nat, Phase>)
    requires At(s, status, true, clients) && status in {Pending, Running} && prior in {Pending, Running}
    requires c in clients && clients[c] == CancelMark(REQUEST.id, prior, true)
    ensures At(Drive(s, c, 3), prior, true, clients[c := CancelDone(REQUEST.id, false)])
  {
    var clients' := clients[c := CancelStop(REQUEST.id, prior, true)];
    RollbackStarts(s, c, status, prior, clients);
    RollbackEnds(Drive(s, c, 1), c, prior, clients');
    assert clients'[c := CancelDone(REQUEST.id, false)] == clients[c := CancelDone(REQUEST.id, false)];
    DriveSplit(s, c, 1, 2);
  }

  lemma BeginThenDrive(s: State, e: Event, client: nat, n: nat)
    ensures Run(s, [e] + Advances(client, n)) == Drive(Step(s, e), client, n)
  {
    var es := [e] + Advances(client, n);
    assert es[0] == e && es[1..] == Advances(client, n);
    DriveIsRun(Step(s, e), client, n);
  }

  /** Up to where the Workflow has prepared and the first canceller still holds its old read. */
  const STALE_READ: seq<Event> :=
    [BeginSubmit(0, REQUEST)] + Advances(0, 7) + [BeginCancel(1, REQUEST.id)] + Advances(1, 1) +
    [BeginPrepare(2, REQUEST.id, "saga", "v1")] + Advances(2, 4)

  const STALE_CLIENTS := Clients(CancelMark(REQUEST.id, Pending, true), Prepared(REQUEST.id, "{}"))

  lemma StaleRead()
    ensures At(Run(INITIAL, STALE_READ), Running, true, STALE_CLIENTS)
  {
    var submit := [BeginSubmit(0, REQUEST)] + Advances(0, 7);
    var read := [BeginCancel(1, REQUEST.id)] + Advances(1, 1);
    var prepare := [BeginPrepare(2, REQUEST.id, "saga", "v1")] + Advances(2, 4);
    assert STALE_READ == submit + read + prepare;
    RunConcat(INITIAL, submit + read, prepare);
    RunConcat(INITIAL, submit, read);
    BeginThenDrive(INITIAL, BeginSubmit(0, REQUEST), 0, 7);
    ReservePhase();
    DriveSplit(Step(INITIAL, BeginSubmit(0, REQUEST)), 0, 4, 3);
    DispatchPhase();
    var s1 := Run(INITIAL, submit);
    BeginThenDrive(s1, BeginCancel(1, REQUEST.id), 1, 1);
    ReadPhase(s1);
    var s2 := Run(s1, read);
    BeginThenDrive(s2, BeginPrepare(2, REQUEST.id, "saga", "v1"), 2, 4);
    PreparePhase(s2);
  }

  /** The run is possible: the Workflow has prepared and is running, yet its row is back to Pending. */
  lemma StaleRollbackHappens()
    ensures At(Run(INITIAL, STALE_ROLLBACK), Pending, true, STALE_CLIENTS[1 := CancelDone(REQUEST.id, false)])
  {
    assert STALE_ROLLBACK == STALE_READ + Advances(1, 3);
    RunConcat(INITIAL, STALE_READ, Advances(1, 3));
    StaleRead();
    var s := Run(INITIAL, STALE_READ);
    DriveIsRun(s, 1, 3);
    RollbackPhase(s, 1, Running, Pending, STALE_CLIENTS);
  }

  /** A second canceller reads Running before the first one's stale rollback. */
  const CROSSED: seq<Event> := STALE_READ + ([BeginCancel(3, REQUEST.id)] + Advances(3, 1)) + Advances(1, 3)

  lemma SecondRead(s: State)
    requires At(s, Running, true, STALE_CLIENTS)
    ensures At(Drive(Step(s, BeginCancel(3, REQUEST.id)), 3, 1), Running, true, STALE_CLIENTS[3 := CancelMark(REQUEST.id, Running, true)])
  {
    var s0 := Step(s, BeginCancel(3, REQUEST.id));
    assert Drive(s0, 3, 1) == Step(s0, Advance(3, QUIET));
  }

  /** Two crossing cancellers: the second has read Running, its marker replaces Pending, its rollback writes Running. */
  lemma CrossedRollbacks()
    ensures At(Run(INITIAL, CROSSED), Pending, true,
               STALE_CLIENTS[3 := CancelMark(REQUEST.id, Running, true)][1 := CancelDone(REQUEST.id, false)])
    ensures HasStatus(Run(Run(INITIAL, CROSSED), Advances(3, 3)).db, REQUEST.id, {Running})
  {
    var read := [BeginCancel(3, REQUEST.id)] + Advances(3, 1);
    RunConcat(INITIAL, STALE_READ + read, Advances(1, 3));
    RunConcat(INITIAL, STALE_READ, read);
    StaleRead();
    var s := Run(INITIAL, STALE_READ);
    BeginThenDrive(s, BeginCancel(3, REQUEST.id), 3, 1);
    SecondRead(s);
    var clients := STALE_CLIENTS[3 := CancelMark(REQUEST.id, Running, true)];
    DriveIsRun(Run(s, read), 1, 3);
    RollbackPhase(Run(s, read), 1, Running, Pending, clients);
    var crossed := Run(INITIAL, CROSSED);
    DriveIsRun(crossed, 3, 3);
    RollbackPhase(crossed, 3, Pending, Running, clients[1 := CancelDone(REQUEST.id, false)]);
  }

  /** From there the success checkpoint is lost, and a vendor timeout takes the row from Pending to TimedOut, a change
    * the transition table does not list. */
  lemma StaleRollbackConsequences(output: string)
    ensures var s := Run(INITIAL, STALE_ROLLBACK);
      && REQUEST.id in s.db.instances && HasStatus(s.db, REQUEST.id, {Pending})
      && Step(s, Succeed(REQUEST.id, 1, output)).db == s.db
      && HasStatus(Step(s, Fail(REQUEST.id, 1, SafeError("_VENDOR_TIMEOUT", ""))).db, REQUEST.id, {TimedOut})
      && !CanTransition(Pending, TimedOut)
  {
    StaleRollbackHappens();
    var s := Run(INITIAL, STALE_ROLLBACK);
    assert Step(s, Succeed(REQUEST.id, 1, output)).db.executions == s.db.executions;
    assert IsTimeoutError(SafeError("_VENDOR_TIMEOUT", ""));
  }

  // ----- A dispatch after the cancel -----

  const VACUOUS := World(0, Acknowledged, NotFound)

  /** From a reserved row: the submitter passes the gate, a canceller confirms a vacuous stop of the undispatched Pending
    * row, the submitter goes on with its createBatch. */
  const LATE_DISPATCH: seq<Event> :=
    [Advance(0, QUIET), BeginCancel(1, REQUEST.id), Advance(1, VACUOUS), Advance(1, VACUOUS), Advance(1, VACUOUS), Advance(1, VACUOUS),
     Advance(0, QUIET), Advance(0, QUIET)]

  lemma RunFrom(s: State, es: seq<Event>, k: nat)
    requires k < |es|
    ensures Run(s, es[k..]) == Run(Step(s, es[k]), es[k + 1..])
  {
    assert es[k..][0] == es[k] && es[k..][1..] == es[k + 1..];
  }

  /** The row of that run and where its two clients stand. */
  function Late(row: Execution, submitter: Phase, canceller: Phase, instances: set<Id>): State {
    State(Db(map[REQUEST.id := row], map[], map[], instances), map[0 := submitter, 1 := canceller], {REQUEST.id})
  }

  const LAUNCHING := Launch(REQUEST, true, ROW)
  const CANCELLED := ROW.(status := Cancelled, completedAt := Some(0), error := Some(CANCEL_ERROR))

  lemma LateRead()
    ensures Step(Late(ROW, LAUNCHING, CancelRead(REQUEST.id), {}), Advance(1, VACUOUS)) == Late(ROW, LAUNCHING, CancelMark(REQUEST.id, Pending, false), {})
  {
  }

  lemma LateMark()
    ensures Step(Late(ROW, LAUNCHING, CancelMark(REQUEST.id, Pending, false), {}), Advance(1, VACUOUS)) ==
      Late(ROW.(status := Cancelling), LAUNCHING, CancelStop(REQUEST.id, Pending, false), {})
  {
  }

  lemma LateStop()
    ensures Step(Late(ROW.(status := Cancelling), LAUNCHING, CancelStop(REQUEST.id, Pending, false), {}), Advance(1, VACUOUS)) ==
      Late(ROW.(status := Cancelling), LAUNCHING, CancelConfirm(REQUEST.id), {})
  {
  }

  lemma LateConfirm()
    ensures Step(Late(ROW.(status := Cancelling), LAUNCHING, CancelConfirm(REQUEST.id), {}), Advance(1, VACUOUS)) ==
      Late(CANCELLED, LAUNCHING, CancelDone(REQUEST.id, true), {})
  {
  }

  lemma LateLaunchSteps()
    ensures var done := CancelDone(REQUEST.id, true);
      && Step(Late(CANCELLED, LAUNCHING, done, {}), Advance(0, QUIET)) == Late(CANCELLED, Confirm(REQUEST, true, ROW), done, {REQUEST.id})
      && Step(Late(CANCELLED, Confirm(REQUEST, true, ROW), done, {REQUEST.id}), Advance(0, QUIET)) ==
           Late(CANCELLED.(dispatched := true), Submitted(REQUEST, false), done, {REQUEST.id})
  {
  }

  /** A cancelled Execution can still be dispatched: the submitter that was past the gate starts the instance of a
    * Cancelled row, marks it dispatched and reports success. */
  lemma CancelledMayStillDispatch()
    ensures Run(INITIAL, [BeginSubmit(0, REQUEST)] + Advances(0, 4) + LATE_DISPATCH) ==
      Late(CANCELLED.(dispatched := true), Submitted(REQUEST, false), CancelDone(REQUEST.id, true), {REQUEST.id})
  {
    RunConcat(INITIAL, [BeginSubmit(0, REQUEST)] + Advances(0, 4), LATE_DISPATCH);
    BeginThenDrive(INITIAL, BeginSubmit(0, REQUEST), 0, 4);
    ReservePhase();
    LateRun();
  }

  lemma LateGate()
    ensures Run(RESERVED, LATE_DISPATCH) == Run(Late(ROW, LAUNCHING, CancelRead(REQUEST.id), {}), LATE_DISPATCH[2..])
  {
    var gated := RESERVED.(clients := map[0 := LAUNCHING], admitted := {REQUEST.id});
    assert Step(RESERVED, LATE_DISPATCH[0]) == gated;
    assert Step(gated, LATE_DISPATCH[1]) == Late(ROW, LAUNCHING, CancelRead(REQUEST.id), {});
    assert LATE_DISPATCH[0..] == LATE_DISPATCH;
    RunFrom(RESERVED, LATE_DISPATCH, 0);
    RunFrom(gated, LATE_DISPATCH, 1);
  }

  lemma LateMarked()
    ensures Run(Late(ROW, LAUNCHING, CancelRead(REQUEST.id), {}), LATE_DISPATCH[2..]) ==
      Run(Late(ROW.(status := Cancelling), LAUNCHING, CancelStop(REQUEST.id, Pending, false), {}), LATE_DISPATCH[4..])
  {
    LateRead();
    LateMark();
    RunFrom(Late(ROW, LAUNCHING, CancelRead(REQUEST.id), {}), LATE_DISPATCH, 2);
    RunFrom(Late(ROW, LAUNCHING, CancelMark(REQUEST.id, Pending, false), {}), LATE_DISPATCH, 3);
  }

  lemma LateConfirmed()
    ensures Run(Late(ROW.(status := Cancelling), LAUNCHING, CancelStop(REQUEST.id, Pending, false), {}), LATE_DISPATCH[4..]) ==
      Run(Late(CANCELLED, LAUNCHING, CancelDone(REQUEST.id, true), {}), LATE_DISPATCH[6..])
  {
    LateStop();
    LateConfirm();
    RunFrom(Late(ROW.(status := Cancelling), LAUNCHING, CancelStop(REQUEST.id, Pending, false), {}), LATE_DISPATCH, 4);
    RunFrom(Late(ROW.(status := Cancelling), LAUNCHING, CancelConfirm(REQUEST.id), {}), LATE_DISPATCH, 5);
  }

  lemma LateRun()
    ensures Run(RESERVED, LATE_DISPATCH) == Late(CANCELLED.(dispatched := true), Submitted(REQUEST, false), CancelDone(REQUEST.id, true), {REQUEST.id})
  {
    LateGate();
    LateMarked();
    LateConfirmed();
    LateLaunchSteps();
    RunFrom(Late(CANCELLED, LAUNCHING, CancelDone(REQUEST.id, true), {}), LATE_DISPATCH, 6);
    RunFrom(Late(CANCELLED, Confirm(REQUEST, true, ROW), CancelDone(REQUEST.id, true), {REQUEST.id}), LATE_DISPATCH, 7);
    assert LATE_DISPATCH[8..] == [];
  }

}
