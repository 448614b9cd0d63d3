/** The control plane as the repository writes it: one object over the shared tables whose methods issue their
  * statements in order. Each method is proved to be its client's run through the state machine of `Submission` with
  * nobody interleaving, so every safety result about runs covers it. */
module ControlPlane {

  import opened Wrappers
  import opened Identity
  import opened Ledger
  import opened Submission
  import opened Solo

  /** How a native terminate call ends; a non-Error throw carries the empty message. */
  datatype Termination = Resolved | Threw(message: string)

  predicate Includes(text: string, part: string) {
    |text| >= |part| && (text[..|part|] == part || Includes(text[1..], part))
  }

  ghost predicate Mentions(text: string, part: string) {
    exists before, after :: text == before + part + after
  }

  lemma MentionsHere(text: string, part: string)
    requires |text| >= |part| && text[..|part|] == part
    ensures Mentions(text, part)
  {
    assert text == [] + part + text[|part|..];
  }

  lemma MentionsLater(text: string, part: string)
    requires |text| > 0 && Mentions(text[1..], part)
    ensures Mentions(text, part)
  {
    var before, after :| text[1..] == before + part + after;
    assert text == ([text[0]] + before) + part + after;
  }

  lemma MentionedSomewhere(text: string, part: string)
    requires |part| > 0 && Mentions(text, part)
    ensures |text| >= |part| && (text[..|part|] == part || Mentions(text[1..], part))
  {
    var before, after :| text == before + part + after;
    if |before| > 0 {
      assert text[1..] == before[1..] + part + after;
    } else {
      assert text[..|part|] == part;
    }
  }

  /** The part stands somewhere in the text. */
  lemma {:induction false} IncludesExactly(text: string, part: string)
    requires |part| > 0
    ensures Includes(text, part) <==> Mentions(text, part)
    decreases |text|
  {
    if |text| >= |part| {
      IncludesExactly(text[1..], part);
      if text[..|part|] == part {
        MentionsHere(text, part);
      } else if Mentions(text[1..], part) {
        MentionsLater(text, part);
      }
    }
    if Mentions(text, part) {
      MentionedSomewhere(text, part);
    }
  }

  function ClassifyTerminateError(message: string): TerminateOutcome {
    if Includes(message, "instance.cannot_terminate") then AlreadySettled
    else if Includes(message, "instance.not_found") then NotFound
    else Ambiguous
  }

  function OutcomeOf(t: Termination): TerminateOutcome {
    match t
    case Resolved => Stopped
    case Threw(message) => ClassifyTerminateError(message)
  }

  predicate IsLive(row: Execution) {
    row.status == Pending || row.status == Running
  }

  /** An active direct child whose native stop counts as observed. */
  predicate StopsChild(row: Execution, caller: Principal, parent: Id, stop: Termination) {
    && row.parent == Some(parent) && row.caller == caller
    && IsLive(row) && ShouldConfirmCancel(OutcomeOf(stop), row.status, row.dispatched)
  }

  /** An active row and a terminate that came through, met a settled instance, or found none of a row that was never
    * dispatched; the error text is what tells. */
  ghost predicate StopObserved(row: Execution, stop: Termination) {
    && (row.status == Pending || row.status == Running)
    && (|| stop.Resolved?
        || Mentions(stop.message, "instance.cannot_terminate")
        || (Mentions(stop.message, "instance.not_found") && row.status == Pending && !row.dispatched))
  }

  lemma StopsObserved(row: Execution, stop: Termination)
    ensures IsLive(row) && ShouldConfirmCancel(OutcomeOf(stop), row.status, row.dispatched) <==> StopObserved(row, stop)
  {
    if stop.Threw? {
      IncludesExactly(stop.message, "instance.cannot_terminate");
      IncludesExactly(stop.message, "instance.not_found");
    }
  }

  function Stopping(executions: map<Id, Execution>, caller: Principal, parent: Id, stops: Id -> Termination): set<Id> {
    set id | id in executions && StopsChild(executions[id], caller, parent, stops(id))
  }

  /** The rows of one SELECT, in the order it returned them. */
  ghost predicate IsSelection(order: seq<Id>, executions: map<Id, Execution>, caller: Principal, parent: Id) {
    && (forall i, j :: 0 <= i < j < |order| ==> order[i] != order[j])
    && (forall id :: id in order <==> id in executions && executions[id].parent == Some(parent) && executions[id].caller == caller)
  }

  /** The children among `order` whose stop counts, in that order. */
  function StoppedInOrder(executions: map<Id, Execution>, caller: Principal, parent: Id, order: seq<Id>, stops: Id -> Termination): seq<Id>
    requires forall id :: id in order ==> id in executions
  {
    if |order| == 0 then []
    else
      var before, id := StoppedInOrder(executions, caller, parent, order[..|order| - 1], stops), order[|order| - 1];
      if StopsChild(executions[id], caller, parent, stops(id)) then before + [id] else before
  }

  lemma {:induction false} StoppedAreStopping(executions: map<Id, Execution>, caller: Principal, parent: Id, order: seq<Id>, stops: Id -> Termination)
    requires forall id :: id in order ==> id in executions
    ensures forall id :: id in StoppedInOrder(executions, caller, parent, order, stops) <==>
      id in order && StopsChild(executions[id], caller, parent, stops(id))
    decreases |order|
  {
    if |order| > 0 {
      StoppedAreStopping(executions, caller, parent, order[..|order| - 1], stops);
      assert order == order[..|order| - 1] + [order[|order| - 1]];
    }
  }

  lemma NextChild(executions: map<Id, Execution>, caller: Principal, parent: Id, order: seq<Id>, i: nat, stops: Id -> Termination)
    requires IsSelection(order, executions, caller, parent) && i < |order|
    ensures var before, id := StoppedInOrder(executions, caller, parent, order[..i], stops), order[i];
      && id !in before
      && StoppedInOrder(executions, caller, parent, order[..i + 1], stops) ==
         (if IsLive(executions[id]) && ShouldConfirmCancel(OutcomeOf(stops(id)), executions[id].status, executions[id].dispatched) then before + [id] else before)
  {
    assert order[..i + 1][..i] == order[..i];
    StoppedAreStopping(executions, caller, parent, order[..i], stops);
    assert order[i] in order;
  }

  /** Each confirmation reads the clock for itself. */
  function CancelAll(executions: map<Id, Execution>, ids: set<Id>, clocks: Id -> int): map<Id, Execution> {
    map id | id in executions :: if id in ids then CancelledAt(executions[id], clocks(id)) else executions[id]
  }

  /** What one more child does to the rows. */
  lemma CancelOneMore(executions: map<Id, Execution>, ids: set<Id>, id: Id, clocks: Id -> int, stopped: bool)
    requires id in executions && id !in ids
    ensures var row := if stopped then CancelledAt(executions[id], clocks(id)) else executions[id];
      CancelAll(executions, ids, clocks)[id := row] == CancelAll(executions, if stopped then ids + {id} else ids, clocks)
  {
  }

  function CancelledAt(row: Execution, now: int): Execution {
    row.(status := Cancelled, completedAt := Some(now), error := Some(CANCEL_ERROR))
  }

  function FailAll(operations: map<OperationKey, Operation>, ids: set<Id>, clocks: Id -> int): map<OperationKey, Operation> {
    map k | k in operations :: if k.execution in ids then FailOperation(operations[k], clocks(k.execution), CANCEL_ERROR) else operations[k]
  }

  lemma FailOneMore(operations: map<OperationKey, Operation>, ids: set<Id>, id: Id, clocks: Id -> int, stopped: bool)
    requires id !in ids
    ensures (if stopped then FailOperations(FailAll(operations, ids, clocks), id, clocks(id), CANCEL_ERROR) else FailAll(operations, ids, clocks)) ==
            FailAll(operations, if stopped then ids + {id} else ids, clocks)
  {
  }

  // ----- What a checkpoint may touch -----

  /** At most this row changed, and none came or went. */
  ghost predicate OnlyRow(before: map<Id, Execution>, after: map<Id, Execution>, id: Id) {
    before.Keys == after.Keys && forall x :: x in before && x != id ==> after[x] == before[x]
  }

  /** At most this Operation changed, and no other came or went. */
  ghost predicate OnlyOperation(before: map<OperationKey, Operation>, after: map<OperationKey, Operation>, k: OperationKey) {
    before.Keys + {k} == after.Keys + {k} && forall x :: x in before && x != k ==> after[x] == before[x]
  }

  /** The Execution has no Running Operation left; those it had failed with this error at this time; its settled ones and
    * everybody else's are as they were. */
  ghost predicate AllSettled(before: map<OperationKey, Operation>, after: map<OperationKey, Operation>, id: Id, now: int, error: SafeError) {
    && before.Keys == after.Keys
    && (forall k :: k in after && k.execution == id ==> after[k].status != OpRunning)
    && (forall k :: k in before && k.execution == id && before[k].status == OpRunning ==>
          && after[k].status == OpFailed && after[k].error == Some(error) && after[k].completedAt == Some(now)
          && after[k].result == before[k].result && after[k].position == before[k].position && after[k].startedAt == before[k].startedAt)
    && (forall k :: k in before && !(k.execution == id && before[k].status == OpRunning) ==> after[k] == before[k])
  }

  /** The row moved to this outcome exactly if it was in one of these statuses; in any other it is as it was. */
  ghost predicate SettledFrom(before: map<Id, Execution>, after: map<Id, Execution>, id: Id, from: set<Status>, to: Status, now: int, error: SafeError) {
    && OnlyRow(before, after, id)
    && (id in before && before[id].status in from ==>
          && after[id].status == to && after[id].completedAt == Some(now) && after[id].error == Some(error)
          && SameIdentity(before[id], after[id]) && after[id].result == before[id].result && after[id].dispatched == before[id].dispatched
          && after[id].startedAt == before[id].startedAt && after[id].policy == before[id].policy)
    && (id in before && before[id].status !in from ==> after[id] == before[id])
  }

  /** A settled prepare Operation stays; any other is now succeeded with the input, under its first position and start. */
  ghost predicate PrepareSettled(before: map<OperationKey, Operation>, after: map<OperationKey, Operation>, k: OperationKey, input: string, now: int) {
    && k in after
    && (k in before && before[k].status != OpRunning ==> after[k] == before[k])
    && (k in before && before[k].status == OpRunning ==>
          after[k] == Operation(before[k].position, OpSucceeded, before[k].startedAt, Some(now), Some(input), None))
    && (k !in before ==> after[k] == Operation(0, OpSucceeded, now, Some(now), Some(input), None))
  }

  const CANCELLED_TEXT := "The Execution was cancelled by its owner."

  /** A confirmed cancel, column by column. */
  ghost predicate IsCancelled(was: Execution, row: Execution, now: int) {
    && row.status == Cancelled && row.completedAt == Some(now) && row.error == Some(SafeError("EXECUTION_CANCELLED", CANCELLED_TEXT))
    && SameIdentity(was, row) && row.result == was.result && row.dispatched == was.dispatched
    && row.startedAt == was.startedAt && row.policy == was.policy
  }

  /** The Running Operations of these Executions failed, each with its Execution's own time; all others are as they were. */
  ghost predicate OperationsFollow(before: map<OperationKey, Operation>, after: map<OperationKey, Operation>, confirmed: seq<Id>, clocks: Id -> int) {
    && before.Keys == after.Keys
    && (forall k :: k in before && k.execution in confirmed && before[k].status == OpRunning ==>
          && after[k].status == OpFailed && after[k].completedAt == Some(clocks(k.execution))
          && after[k].result == before[k].result && after[k].position == before[k].position && after[k].startedAt == before[k].startedAt
          && after[k].error == Some(SafeError("EXECUTION_CANCELLED", CANCELLED_TEXT)))
    && (forall k :: k in before && !(k.execution in confirmed && before[k].status == OpRunning) ==> after[k] == before[k])
  }

  /** Exactly these rows are cancelled, each at its own time; all others are as they were. */
  ghost predicate RowsFollow(before: map<Id, Execution>, after: map<Id, Execution>, confirmed: seq<Id>, clocks: Id -> int) {
    && before.Keys == after.Keys
    && (forall id :: id in confirmed ==> id in before && IsCancelled(before[id], after[id], clocks(id)))
    && (forall id :: id in before && id !in confirmed ==> after[id] == before[id])
  }

  lemma CancelsAll(executions: map<Id, Execution>, ids: set<Id>, confirmed: seq<Id>, clocks: Id -> int)
    requires ids <= executions.Keys && forall id :: id in ids <==> id in confirmed
    ensures RowsFollow(executions, CancelAll(executions, ids, clocks), confirmed, clocks)
  {
  }

  lemma FollowsAll(operations: map<OperationKey, Operation>, ids: set<Id>, confirmed: seq<Id>, clocks: Id -> int)
    requires forall id :: id in ids <==> id in confirmed
    ensures OperationsFollow(operations, FailAll(operations, ids, clocks), confirmed, clocks)
  {
  }

  /** Cancelling active rows together with their Operations keeps the tables consistent. */
  lemma CancelsConsistently(db: Db, ids: set<Id>, clocks: Id -> int)
    requires forall id :: id in ids ==> id in db.executions && IsLive(db.executions[id])
    ensures Consistent(db) ==> Consistent(db.(executions := CancelAll(db.executions, ids, clocks), operations := FailAll(db.operations, ids, clocks)))
  {
    if Consistent(db) {
      var after := db.(executions := CancelAll(db.executions, ids, clocks), operations := FailAll(db.operations, ids, clocks));
      forall id | id in after.executions ensures RowConsistent(after, id) {
        assert RowConsistent(db, id);
      }
    }
  }

  /** What a whole cancel leaves. */
  ghost predicate CancelLeaves(db: Db, id: Id, now: int, confirmed: bool, db': Db) {
    if confirmed then
      && OnlyRow(db.executions, db'.executions, id) && id in db.executions && IsCancelled(db.executions[id], db'.executions[id], now)
      && AllSettled(db.operations, db'.operations, id, now, SafeError("EXECUTION_CANCELLED", CANCELLED_TEXT))
    else db'.executions == db.executions && db'.operations == db.operations
  }

  lemma CancelTable(db: Db, id: Id, w: World)
    ensures var (db', answer) := Alone(db, CancelRead(id), w);
      && answer.CancelDone? && answer.id == id && CancelLeaves(db, id, w.now, answer.confirmed, db')
      && (answer.confirmed <==>
            && id in db.executions && db.executions[id].status in {Pending, Running}
            && (w.stop == Stopped || w.stop == AlreadySettled
                || (w.stop == NotFound && db.executions[id].status == Pending && !db.executions[id].dispatched)))
  {
    ReadAlone(db, id, w);
    if HasStatus(db, id, {Pending, Running}) {
      ActiveTable(db, id, w);
    }
  }

  /** The cancel of an active row. */
  lemma ActiveTable(db: Db, id: Id, w: World)
    requires HasStatus(db, id, {Pending, Running})
    ensures var row := db.executions[id];
      var confirmed := w.stop == Stopped || w.stop == AlreadySettled || (w.stop == NotFound && row.status == Pending && !row.dispatched);
      var (db', answer) := Alone(db, CancelMark(id, row.status, row.dispatched), w);
      answer == CancelDone(id, confirmed) && CancelLeaves(db, id, w.now, confirmed, db')
  {
    var row, marked := db.executions[id], Apply(db, MarkCancelling(id));
    MarkAlone(db, id, row.status, row.dispatched, w);
    StopAlone(marked, id, row.status, row.dispatched, w);
    if ShouldConfirmCancel(w.stop, row.status, row.dispatched) {
      ConfirmAlone(marked, id, w);
      MarkedThenConfirmed(db, id, w.now);
    } else {
      RollbackAlone(marked, id, row.status, w);
      MarkedThenRolledBack(db, id);
    }
  }

  lemma MarkedThenConfirmed(db: Db, id: Id, now: int)
    requires HasStatus(db, id, {Pending, Running})
    ensures CancelLeaves(db, id, now, true, Apply(Apply(db, MarkCancelling(id)), ConfirmCancel(id, now)))
  {
    FailsAll(db.operations, id, now, CANCEL_ERROR);
  }

  lemma MarkedThenRolledBack(db: Db, id: Id)
    requires HasStatus(db, id, {Pending, Running})
    ensures CancelLeaves(db, id, 0, false, Apply(Apply(db, MarkCancelling(id)), RollBack(id, db.executions[id].status)))
  {
    var after := Apply(Apply(db, MarkCancelling(id)), RollBack(id, db.executions[id].status));
    assert after.executions[id] == db.executions[id];
  }

  /** What a prepare that goes on leaves. */
  ghost predicate PrepareLeaves(db: Db, id: Id, now: int, db': Db)
    requires id in db.executions
  {
    var was, k := db.executions[id], OperationKey(id, "prepare-input-v1");
    && db'.executions == (if was.status != Pending then db.executions
         else db.executions[id := was.(status := Running, startedAt := if was.startedAt.Some? then was.startedAt else Some(now))])
    && OnlyOperation(db.operations, db'.operations, k) && PrepareSettled(db.operations, db'.operations, k, was.input, now)
  }

  /** From its first write on. */
  lemma PrepareTable(db: Db, id: Id, w: World)
    requires id in db.executions
    ensures var (db', answer) := Alone(db, PrepareMark(id, db.executions[id].input), w);
      answer == Prepared(id, db.executions[id].input) && PrepareLeaves(db, id, w.now, db')
  {
    PrepareAlone(db, id, db.executions[id].input, w);
    PrepareStatements(db, id, w.now);
  }

  lemma PrepareStatements(db: Db, id: Id, now: int)
    requires id in db.executions
    ensures var begun := Apply(Apply(db, MarkRunning(id, now)), BeginOperation(id, "prepare-input-v1", 0, now));
      PrepareLeaves(db, id, now, Apply(begun, FinishOperation(id, "prepare-input-v1", now, db.executions[id].input)))
  {
    PrepareOperation(db.operations, OperationKey(id, "prepare-input-v1"), now, db.executions[id].input);
    assert db.executions[id := db.executions[id]] == db.executions;
  }

  lemma PrepareOperation(operations: map<OperationKey, Operation>, k: OperationKey, now: int, input: string)
    requires k.name == "prepare-input-v1"
    ensures var begun := OperationsAfter(operations, BeginOperation(k.execution, k.name, 0, now));
      var after := OperationsAfter(begun, FinishOperation(k.execution, k.name, now, input));
      OnlyOperation(operations, after, k) && PrepareSettled(operations, after, k, input, now)
  {
    assert OperationKey(k.execution, k.name) == k;
  }

  /** Where the fan-out's loop ends. */
  lemma FanOutEnds(db: Db, caller: Principal, parent: Id, order: seq<Id>, stops: Id -> Termination, clocks: Id -> int, confirmed: seq<Id>, done: set<Id>)
    requires IsSelection(order, db.executions, caller, parent)
    requires confirmed == StoppedInOrder(db.executions, caller, parent, order, stops) && forall id :: id in done <==> id in confirmed
    ensures done == Stopping(db.executions, caller, parent, stops)
    ensures forall id :: id in confirmed <==>
      && id in db.executions && db.executions[id].parent == Some(parent) && db.executions[id].caller == caller
      && StopObserved(db.executions[id], stops(id))
    ensures RowsFollow(db.executions, CancelAll(db.executions, done, clocks), confirmed, clocks)
    ensures OperationsFollow(db.operations, FailAll(db.operations, done, clocks), confirmed, clocks)
    ensures Consistent(db) ==> Consistent(db.(executions := CancelAll(db.executions, done, clocks), operations := FailAll(db.operations, done, clocks)))
  {
    StoppedAreStopping(db.executions, caller, parent, order, stops);
    forall id | id in db.executions
      ensures IsLive(db.executions[id]) && ShouldConfirmCancel(OutcomeOf(stops(id)), db.executions[id].status, db.executions[id].dispatched)
              <==> StopObserved(db.executions[id], stops(id))
    {
      StopsObserved(db.executions[id], stops(id));
    }
    FollowsAll(db.operations, done, confirmed, clocks);
    CancelsAll(db.executions, done, confirmed, clocks);
    CancelsConsistently(db, done, clocks);
  }

  lemma FailsAll(operations: map<OperationKey, Operation>, id: Id, now: int, error: SafeError)
    ensures AllSettled(operations, FailOperations(operations, id, now, error), id, now, error)
  {
  }

  lemma Settles(executions: map<Id, Execution>, id: Id, from: set<Status>, to: Status, now: int, error: SafeError)
    requires id in executions
    ensures executions[id].status in from ==>
      SettledFrom(executions, executions[id := executions[id].(status := to, completedAt := Some(now), error := Some(error))], id, from, to, now, error)
    ensures executions[id].status !in from ==> SettledFrom(executions, executions, id, from, to, now, error)
  {
  }

  lemma KeepsConsistent(db: Db, st: Statement)
    requires Legal(db, st)
    ensures Consistent(db) ==> Consistent(Apply(db, st))
  {
    if Consistent(db) {
      StatementKeepsConsistent(db, st);
    }
  }

  lemma TimeoutCodes(error: SafeError)
    ensures IsTimeoutError(error) <==> exists vendor :: error.code == vendor + "_VENDOR_TIMEOUT"
  {
    if IsTimeoutError(error) {
      assert error.code == error.code[..|error.code| - |"_VENDOR_TIMEOUT"|] + "_VENDOR_TIMEOUT";
    }
  }

  class ControlPlane {
    var executions: map<Id, Execution>
    var operations: map<OperationKey, Operation>
    var policies: map<PolicyKey, Policy>
    var instances: set<Id>

    ghost function Tables(): Db
      reads this
    {
      Db(executions, operations, policies, instances)
    }

    constructor ()
      ensures Tables() == EMPTY
    {
      executions := map[];
      operations := map[];
      policies := map[];
      instances := {};
    }

    method StoreSagaPolicy(key: PolicyKey, policy: Policy)
      modifies this`policies
      ensures Tables() == Apply(old(Tables()), StorePolicy(key, policy))
      ensures policies == old(policies)[key := policy]
    {
      policies := policies[key := policy];
    }

    method LoadSagaPolicy(org: string, saga: string) returns (policy: Policy)
      ensures policy == EffectivePolicy(Tables(), org, saga)
    {
      var key := PolicyKey(org, saga);
      policy := if key in policies then policies[key] else DEFAULT_POLICY;
    }

    /** The shared admission decision; `None` lets the caller dispatch. */
    method AdmitExecution(org: string, saga: string, self: Id) returns (refusal: Option<string>)
      ensures refusal ==
        var key := PolicyKey(org, saga);
        var policy := if key in policies then policies[key] else Policy(true, 0);
        var others := set id | id in executions && id != self && executions[id].status in {Pending, Running, Cancelling} &&
                               executions[id].caller.org == org && executions[id].saga == saga;
        if !policy.enabled then Some("SAGA_PAUSED")
        else if policy.maxConcurrent > 0 && |others| >= policy.maxConcurrent then Some("ADMISSION_LIMITED")
        else None
    {
      ghost var others := set id | id in executions && id != self && executions[id].status in {Pending, Running, Cancelling} &&
                                   executions[id].caller.org == org && executions[id].saga == saga;
      var policy := LoadSagaPolicy(org, saga);
      if !policy.enabled {
        return Some("SAGA_PAUSED");
      }
      if policy.maxConcurrent > 0 {
        var active := set id | id in executions && id != self && IsActive(executions[id].status) &&
                               executions[id].caller.org == org && executions[id].saga == saga;
        assert active == others;
        if |active| >= policy.maxConcurrent {
          return Some("ADMISSION_LIMITED");
        }
      }
      return None;
    }

    method Submit(req: Request, w: World) returns (outcome: Phase)
      requires req.id.Top?
      modifies this
      ensures (Tables(), outcome) == Alone(old(Tables()), Snapshot(req), w)
      ensures outcome == SubmitAnswer(old(Tables()), req, w)
      ensures Leaves(old(Tables()), req, Some(StoredPolicy(old(Tables()), req)), w, outcome, Tables())
    {
      SubmitTable(Tables(), req, w);
      var stamp := LoadSagaPolicy(req.id.caller.org, req.saga);
      SnapshotAlone(Tables(), req, w);
      var created := InsertRow(req, Some(stamp), w);
      RereadAlone(Tables(), req, Some(stamp), created, w);
      var row := executions[req.id];
      if row.saga != req.saga || row.input != req.input {
        return Refused(req, "IDEMPOTENCY_CONFLICT");
      }
      StampAlone(Tables(), req, Some(stamp), created, w);
      if row.policy.None? {
        executions := executions[req.id := row.(policy := Some(stamp))];
      }
      outcome := DispatchSeen(req, created, row, w);
    }

    /** The child path: no policy stamp and no recovery window, the same gate. */
    method InvokeChild(req: Request, w: World) returns (outcome: Phase)
      requires req.id.Child?
      modifies this
      ensures (Tables(), outcome) == Alone(old(Tables()), Insert(req, None), w)
      ensures outcome == ChildAnswer(old(Tables()), req, w)
      ensures Leaves(old(Tables()), req, None, w, outcome, Tables())
    {
      ChildTable(Tables(), req, w);
      var created := InsertRow(req, None, w);
      RereadAlone(Tables(), req, None, created, w);
      var row := executions[req.id];
      if row.saga != req.saga || row.input != req.input || row.parent != Some(req.id.parent) || row.parentStep != Some(req.id.step) {
        return Refused(req, "CHILD_DISPATCH_CONFLICT");
      }
      StampAlone(Tables(), req, None, created, w);
      outcome := DispatchSeen(req, created, row, w);
    }

    /** INSERT … ON CONFLICT(id) DO NOTHING. */
    method InsertRow(req: Request, stamp: Option<Policy>, w: World) returns (created: bool)
      modifies this`executions
      ensures created <==> req.id !in old(executions)
      ensures req.id in executions && Tables() == Reserved(old(Tables()), req, stamp, w)
      ensures Alone(Tables(), Reread(req, stamp, created), w) == Alone(old(Tables()), Insert(req, stamp), w)
    {
      InsertAlone(Tables(), req, stamp, w);
      created := req.id !in executions;
      if created {
        executions := executions[req.id := NewExecution(req.id, req.saga, req.revision, req.input, w.now, stamp)];
      }
    }

    /** A cancelled row never goes on, a dispatched one is a replay, everything else meets the gate. */
    method DispatchSeen(req: Request, created: bool, row: Execution, w: World) returns (outcome: Phase)
      requires req.id in executions
      modifies this
      ensures (Tables(), outcome) == Alone(old(Tables()), AfterStamp(req, created, row), w)
    {
      if row.status == Cancelling || row.status == Cancelled {
        return Refused(req, Code(req, "EXECUTION_CANCELLED", "CHILD_FAILED"));
      }
      if !row.dispatched {
        outcome := Dispatch(req, created, row, w);
      } else {
        outcome := Submitted(req, Replayed(req, created, row));
      }
    }

    /** Gate, recovery window, createBatch, dispatched marker. */
    method Dispatch(req: Request, created: bool, row: Execution, w: World) returns (outcome: Phase)
      requires req.id in executions
      modifies this
      ensures (Tables(), outcome) == Alone(old(Tables()), GatePolicy(req, created, row), w)
    {
      var refusal := AdmitExecution(req.id.caller.org, req.saga, req.id);
      GateTable(Tables(), req, created, row, w);
      if refusal.Some? {
        return Refused(req, refusal.value);
      }
      outcome := CreateAndConfirm(req, created, row, w);
    }

    method CreateAndConfirm(req: Request, created: bool, row: Execution, w: World) returns (outcome: Phase)
      requires req.id in executions
      modifies this
      ensures (Tables(), outcome) == Alone(old(Tables()), Launch(req, created, row), w)
      ensures outcome ==
        if req.id.Top? && (row.revision != req.revision || w.now >= row.createdAt + 900000) then Refused(req, "RECOVERY_EXPIRED")
        else if w.launch == Acknowledged then Submitted(req, if req.id.Top? then !created else row.dispatched)
        else Refused(req, if req.id.Top? then "DISPATCH_UNCONFIRMED" else "CHILD_DISPATCH_UNCONFIRMED")
      ensures instances == old(instances) + (if outcome.Submitted? || (outcome.code != "RECOVERY_EXPIRED" && w.launch == ThrownAfterStart) then {req.id} else {})
      ensures executions == if outcome.Submitted? then old(executions)[req.id := old(executions)[req.id].(dispatched := true)] else old(executions)
    {
      LaunchTable(Tables(), req, created, row, w);
      AloneStep(Tables(), Launch(req, created, row), w);
      if RecoveryExpired(req, row, w.now) {
        return Refused(req, "RECOVERY_EXPIRED");
      }
      if w.launch == ThrownBeforeStart {
        return Refused(req, Code(req, "DISPATCH_UNCONFIRMED", "CHILD_DISPATCH_UNCONFIRMED"));
      }
      instances := instances + {req.id};
      assert Tables() == Apply(old(Tables()), CreateInstance(req.id));
      if w.launch == ThrownAfterStart {
        return Refused(req, Code(req, "DISPATCH_UNCONFIRMED", "CHILD_DISPATCH_UNCONFIRMED"));
      }
      AloneStep(Tables(), Confirm(req, created, row), w);
      executions := executions[req.id := executions[req.id].(dispatched := true)];
      outcome := Submitted(req, Replayed(req, created, row));
    }

    /** It answers the row's input exactly for an existing row of this Saga and revision that nobody is cancelling, a retried
      * step included: then a Pending row is Running from now on, any other keeps everything, and the prepare Operation has
      * succeeded, with this input unless it was settled before. Otherwise nothing changes. */
    method PrepareExecution(id: Id, saga: string, revision: string, w: World) returns (outcome: Phase)
      modifies this`executions, this`operations
      ensures (Tables(), outcome) == Alone(old(Tables()), PrepareRead(id, saga, revision), w)
      ensures outcome ==
        if id in old(executions) && old(executions)[id].saga == saga && old(executions)[id].revision == revision
           && old(executions)[id].status != Cancelling && old(executions)[id].status != Cancelled
        then Prepared(id, old(executions)[id].input) else PrepareFailed(id)
      ensures if outcome.Prepared? then PrepareLeaves(old(Tables()), id, w.now, Tables()) else Tables() == old(Tables())
    {
      AloneStep(Tables(), PrepareRead(id, saga, revision), w);
      if id !in executions || executions[id].saga != saga || executions[id].revision != revision {
        return PrepareFailed(id);
      }
      var row := executions[id];
      if row.status == Cancelling || row.status == Cancelled {
        return PrepareFailed(id);
      }
      outcome := PrepareRow(id, row.input, w);
    }

    /** The writes of a prepare. */
    method PrepareRow(id: Id, input: string, w: World) returns (outcome: Phase)
      requires id in executions && executions[id].input == input
      modifies this`executions, this`operations
      ensures (Tables(), outcome) == Alone(old(Tables()), PrepareMark(id, input), w)
      ensures outcome == Prepared(id, input) && PrepareLeaves(old(Tables()), id, w.now, Tables())
    {
      PrepareTable(Tables(), id, w);
      PrepareAlone(Tables(), id, input, w);
      MarkRunningRow(id, w.now);
      BeginOperationRow(id, "prepare-input-v1", 0, w.now);
      FinishOperationRow(id, "prepare-input-v1", w.now, input);
      return Prepared(id, input);
    }

    method MarkRunningRow(id: Id, now: int)
      modifies this`executions
      ensures Tables() == Apply(old(Tables()), MarkRunning(id, now))
    {
      if id in executions && executions[id].status == Pending {
        executions := executions[id := executions[id].(status := Running, startedAt := Coalesce(executions[id].startedAt, now))];
      }
    }

    /** An Operation is there afterwards whatever was before: a settled one as it was, any other Running with nothing
      * recorded, under its first position and start time. */
    method BeginOperationRow(id: Id, name: string, position: nat, now: int)
      modifies this`operations
      ensures Tables() == Apply(old(Tables()), BeginOperation(id, name, position, now))
      ensures Consistent(old(Tables())) ==> Consistent(Tables())
      ensures var k := OperationKey(id, name);
        && OnlyOperation(old(operations), operations, k) && k in operations
        && (k in old(operations) && old(operations)[k].status != OpRunning ==> operations[k] == old(operations)[k])
        && (k in old(operations) ==> operations[k].status == old(operations)[k].status)
        && (k in old(operations) ==> operations[k].position == old(operations)[k].position && operations[k].startedAt == old(operations)[k].startedAt)
        && (operations[k].status == OpRunning ==>
              operations[k].completedAt.None? && operations[k].result.None? && operations[k].error.None?)
        && (k !in old(operations) ==> operations[k].status == OpRunning && operations[k].position == position && operations[k].startedAt == now)
    {
      KeepsConsistent(Tables(), BeginOperation(id, name, position, now));
      var k := OperationKey(id, name);
      if k !in operations {
        operations := operations[k := Operation(position, OpRunning, now, None, None, None)];
      } else if operations[k].status == OpRunning {
        operations := operations[k := operations[k].(completedAt := None, result := None, error := None)];
      }
    }

    /** Only a Running Operation succeeds; one that is missing or settled stays as it is, and so does everything else. */
    method FinishOperationRow(id: Id, name: string, now: int, output: string)
      modifies this`operations
      ensures Tables() == Apply(old(Tables()), FinishOperation(id, name, now, output))
      ensures Consistent(old(Tables())) ==> Consistent(Tables())
      ensures var k, was := OperationKey(id, name), old(operations);
        && OnlyOperation(was, operations, k) && operations.Keys == was.Keys
        && (k in was ==> (operations[k] != was[k] <==> was[k].status == OpRunning))
        && (k in was && was[k].status == OpRunning ==>
              && operations[k].status == OpSucceeded && operations[k].result == Some(output) && operations[k].completedAt == Some(now)
              && operations[k].error == was[k].error
              && operations[k].position == was[k].position && operations[k].startedAt == was[k].startedAt)
    {
      KeepsConsistent(Tables(), FinishOperation(id, name, now, output));
      var k := OperationKey(id, name);
      if k in operations && operations[k].status == OpRunning {
        operations := operations[k := operations[k].(status := OpSucceeded, completedAt := Some(now), result := Some(output))];
      }
    }

    /** Only a Running row succeeds; a row that was cancelled, failed or rolled back to Pending keeps everything. */
    method PersistRunSuccess(id: Id, now: int, output: string)
      modifies this`executions
      ensures Tables() == Apply(old(Tables()), MarkSucceeded(id, now, output))
      ensures Consistent(old(Tables())) ==> Consistent(Tables())
      ensures OnlyRow(old(executions), executions, id)
      ensures id in executions ==> (executions[id] != old(executions)[id] <==> old(executions)[id].status == Running)
      ensures id in executions && old(executions)[id].status == Running ==>
        && executions[id].status == Succeeded && executions[id].result == Some(output) && executions[id].completedAt == Some(now)
        && SameIdentity(old(executions)[id], executions[id]) && executions[id].error == old(executions)[id].error
        && executions[id].startedAt == old(executions)[id].startedAt && executions[id].policy == old(executions)[id].policy
        && executions[id].dispatched == old(executions)[id].dispatched
    {
      KeepsConsistent(Tables(), MarkSucceeded(id, now, output));
      if id in executions && executions[id].status == Running {
        executions := executions[id := executions[id].(status := Succeeded, completedAt := Some(now), result := Some(output))];
      }
    }

    /** The failure batch: a Pending or Running row takes the outcome, a Cancelling or terminal one keeps everything, and
      * in either case the Execution has no Running Operation left. */
    method FailExecution(id: Id, now: int, error: SafeError, status: Status)
      modifies this`executions, this`operations
      ensures Tables() == Apply(old(Tables()), FailBatch(id, now, error, status))
      ensures (status == Failed || status == TimedOut) && Consistent(old(Tables())) ==> Consistent(Tables())
      ensures AllSettled(old(operations), operations, id, now, error)
      ensures SettledFrom(old(executions), executions, id, {Pending, Running}, status, now, error)
    {
      if status == Failed || status == TimedOut {
        KeepsConsistent(Tables(), FailBatch(id, now, error, status));
      }
      FailsAll(operations, id, now, error);
      operations := FailOperations(operations, id, now, error);
      if id in executions {
        Settles(executions, id, {Pending, Running}, status, now, error);
      }
      if id in executions && executions[id].status in {Pending, Running} {
        executions := executions[id := executions[id].(status := status, completedAt := Some(now), error := Some(error))];
      }
    }

    /** The workflow's last resort: an active row ends TimedOut exactly if the code says that a vendor timed out, Failed
      * otherwise, and never anything else. */
    method FailSagaExecution(id: Id, now: int, error: SafeError)
      modifies this`executions, this`operations
      ensures Consistent(old(Tables())) ==> Consistent(Tables())
      ensures AllSettled(old(operations), operations, id, now, error)
      ensures OnlyRow(old(executions), executions, id)
      ensures HasStatus(old(Tables()), id, {Pending, Running}) ==>
        && executions[id].error == Some(error) && executions[id].status in {Failed, TimedOut}
        && (executions[id].status == TimedOut <==> exists vendor :: error.code == vendor + "_VENDOR_TIMEOUT")
      ensures !HasStatus(old(Tables()), id, {Pending, Running}) ==> executions == old(executions)
    {
      TimeoutCodes(error);
      FailExecution(id, now, error, if IsTimeoutError(error) then TimedOut else Failed);
    }

    /** The confirming batch: only a Cancelling row becomes Cancelled, without result and with the cancel error; in any
      * other status it keeps everything. The Execution has no Running Operation left. */
    method CancelExecution(id: Id, now: int)
      modifies this`executions, this`operations
      ensures Tables() == Apply(old(Tables()), ConfirmCancel(id, now))
      ensures Consistent(old(Tables())) ==> Consistent(Tables())
      ensures AllSettled(old(operations), operations, id, now, CANCEL_ERROR)
      ensures SettledFrom(old(executions), executions, id, {Cancelling}, Cancelled, now, CANCEL_ERROR)
    {
      KeepsConsistent(Tables(), ConfirmCancel(id, now));
      FailsAll(operations, id, now, CANCEL_ERROR);
      if id in executions {
        Settles(executions, id, {Cancelling}, Cancelled, now, CANCEL_ERROR);
      }
      operations := FailOperations(operations, id, now, CANCEL_ERROR);
      if id in executions && executions[id].status == Cancelling {
        executions := executions[id := executions[id].(status := Cancelled, completedAt := Some(now), error := Some(CANCEL_ERROR))];
      }
    }

    /** Mark, terminate, classify, then confirm or roll back to the status read first. Undisturbed, it confirms exactly an
      * active row whose stop was observed, or that was never dispatched and has no instance; any other row is as it was. */
    method CancelOne(id: Id, w: World) returns (confirmed: bool)
      modifies this`executions, this`operations
      ensures (Tables(), CancelDone(id, confirmed)) == Alone(old(Tables()), CancelRead(id), w)
      ensures confirmed <==>
        && id in old(executions) && old(executions)[id].status in {Pending, Running}
        && (w.stop == Stopped || w.stop == AlreadySettled
            || (w.stop == NotFound && old(executions)[id].status == Pending && !old(executions)[id].dispatched))
      ensures CancelLeaves(old(Tables()), id, w.now, confirmed, Tables())
    {
      CancelTable(Tables(), id, w);
      ReadAlone(Tables(), id, w);
      if id !in executions || executions[id].status !in {Pending, Running} {
        return false;
      }
      var prior, dispatched := executions[id].status, executions[id].dispatched;
      MarkAlone(Tables(), id, prior, dispatched, w);
      MarkCancellingRow(id);
      StopAlone(Tables(), id, prior, dispatched, w);
      if ShouldConfirmCancel(w.stop, prior, dispatched) {
        ConfirmAlone(Tables(), id, w);
        CancelExecution(id, w.now);
        return true;
      }
      RollbackAlone(Tables(), id, prior, w);
      RollBackRow(id, prior);
      return false;
    }

    method MarkCancellingRow(id: Id)
      modifies this`executions
      ensures Tables() == Apply(old(Tables()), MarkCancelling(id))
    {
      if id in executions && executions[id].status in {Pending, Running} {
        executions := executions[id := executions[id].(status := Cancelling)];
      }
    }

    /** One child of the fan-out: mark it, attempt the native stop, confirm or roll back to the status the SELECT saw.
      * Its own reading of the terminate error decides as the cancel route's classification does. */
    method CancelChild(id: Id, kid: Execution, stop: Termination, now: int) returns (stopped: bool)
      requires id in executions && executions[id] == kid
      modifies this`executions, this`operations
      ensures stopped <==> IsLive(kid) && ShouldConfirmCancel(OutcomeOf(stop), kid.status, kid.dispatched)
      ensures stopped <==> StopObserved(kid, stop)
      ensures executions == old(executions)[id := if stopped then CancelledAt(kid, now) else kid]
      ensures if stopped then IsCancelled(kid, executions[id], now) else executions == old(executions)
      ensures operations == if stopped then FailOperations(old(operations), id, now, CANCEL_ERROR) else old(operations)
    {
      if kid.status != Pending && kid.status != Running {
        return false;
      }
      executions := executions[id := kid.(status := Cancelling)];
      StopsObserved(kid, stop);
      stopped := false;
      if stop.Resolved? {
        stopped := true;
      } else if Includes(stop.message, "instance.cannot_terminate") {
        stopped := true;
      } else if Includes(stop.message, "instance.not_found") && kid.status == Pending && !kid.dispatched {
        stopped := true;
      }
      if stopped {
        operations := FailOperations(operations, id, now, CANCEL_ERROR);
        executions := executions[id := CancelledAt(executions[id], now)];
        return true;
      }
      executions := executions[id := executions[id].(status := kid.status)];
      return false;
    }

    /** Best-effort fan-out over the direct children read by one SELECT, in its order. Undisturbed, it cancels exactly the
      * active children whose stop was observed, answers them in that order, and leaves every other row as it was. */
    method CancelDirectChildren(caller: Principal, parent: Id, order: seq<Id>, stops: Id -> Termination, clocks: Id -> int)
      returns (confirmed: seq<Id>)
      requires IsSelection(order, executions, caller, parent)
      modifies this`executions, this`operations
      ensures confirmed == StoppedInOrder(old(executions), caller, parent, order, stops)
      ensures forall id :: id in confirmed <==>
        && id in old(executions) && old(executions)[id].parent == Some(parent) && old(executions)[id].caller == caller
        && StopObserved(old(executions)[id], stops(id))
      ensures RowsFollow(old(executions), executions, confirmed, clocks)
      ensures OperationsFollow(old(operations), operations, confirmed, clocks)
      ensures Consistent(old(Tables())) ==> Consistent(Tables())
    {
      ghost var before := Tables();
      ghost var done;
      confirmed, done := CancelSelected(caller, parent, order, stops, clocks);
      FanOutEnds(before, caller, parent, order, stops, clocks, confirmed, done);
    }

    /** The loop over the selected rows. */
    method CancelSelected(caller: Principal, parent: Id, order: seq<Id>, stops: Id -> Termination, clocks: Id -> int)
      returns (confirmed: seq<Id>, ghost done: set<Id>)
      requires IsSelection(order, executions, caller, parent)
      modifies this`executions, this`operations
      ensures confirmed == StoppedInOrder(old(executions), caller, parent, order, stops)
      ensures forall id :: id in done <==> id in confirmed
      ensures executions == CancelAll(old(executions), done, clocks)
      ensures operations == FailAll(old(operations), done, clocks)
    {
      var selected := executions;
      ghost var begun := operations;
      confirmed := [];
      done := {};
      for i := 0 to |order|
        invariant confirmed == StoppedInOrder(selected, caller, parent, order[..i], stops)
        invariant forall id :: id in done <==> id in confirmed
        invariant executions == CancelAll(selected, done, clocks) && operations == FailAll(begun, done, clocks)
      {
        var id := order[i];
        NextChild(selected, caller, parent, order, i, stops);
        assert executions[id] == selected[id];
        var stopped := CancelChild(id, selected[id], stops(id), clocks(id));
        CancelOneMore(selected, done, id, clocks, stopped);
        FailOneMore(begun, done, id, clocks, stopped);
        confirmed := if stopped then confirmed + [id] else confirmed;
        done := if stopped then done + {id} else done;
      }
      assert order[..|order|] == order;
    }

    method RollBackRow(id: Id, prior: Status)
      modifies this`executions
      ensures Tables() == Apply(old(Tables()), RollBack(id, prior))
    {
      if id in executions && executions[id].status == Cancelling {
        executions := executions[id := executions[id].(status := prior)];
      }
    }
  }

}
