/** The shared D1 tables behind every Execution, and each SQL write the control plane issues against them.
  * One statement (or one batch) is one atomic step, so a run of the whole system is a sequence of statements
  * in commit order, whoever issued them. */
module Ledger {

  import opened Wrappers
  import opened Identity

  // ----- Rows -----

  datatype Status = Pending | Running | Succeeded | Failed | TimedOut | Cancelling | Cancelled

  predicate IsTerminal(status: Status) {
    status == Succeeded || status == Failed || status == TimedOut || status == Cancelled
  }

  /** The statuses that admission counts. */
  predicate IsActive(status: Status) {
    status == Pending || status == Running || status == Cancelling
  }

  function Successors(from: Status): set<Status> {
    match from
    case Pending => {Running, Failed, Cancelling}
    case Running => {Succeeded, Failed, TimedOut, Cancelling}
    case Cancelling => {Cancelled}
    case _ => {}
  }

  predicate CanTransition(from: Status, to: Status) {
    to in Successors(from)
  }

  datatype SafeError = SafeError(code: string, message: string)

  predicate EndsWith(text: string, suffix: string) {
    |suffix| <= |text| && text[|text| - |suffix|..] == suffix
  }

  predicate IsTimeoutError(error: SafeError) {
    EndsWith(error.code, "_VENDOR_TIMEOUT")
  }

  /** The admission section of a Saga's runtime policy; a limit of 0 means unbounded. */
  datatype Policy = Policy(enabled: bool, maxConcurrent: nat)

  const DEFAULT_POLICY := Policy(true, 0)

  datatype Execution = Execution(
    saga: string, revision: string, caller: Principal, input: string,
    parent: Option<Id>, parentStep: Option<string>,
    dispatched: bool, status: Status,
    createdAt: int, startedAt: Option<int>, completedAt: Option<int>,
    result: Option<string>, error: Option<SafeError>,
    policy: Option<Policy>)

  datatype OperationStatus = OpRunning | OpSucceeded | OpFailed

  datatype Operation = Operation(
    position: nat, status: OperationStatus, startedAt: int, completedAt: Option<int>,
    result: Option<string>, error: Option<SafeError>)

  datatype OperationKey = OperationKey(execution: Id, name: string)

  datatype PolicyKey = PolicyKey(org: string, saga: string)

  /** `instances` is the set of native Workflow instances; createBatch skips retained ids. */
  datatype Db = Db(
    executions: map<Id, Execution>,
    operations: map<OperationKey, Operation>,
    policies: map<PolicyKey, Policy>,
    instances: set<Id>)

  const EMPTY := Db(map[], map[], map[], {})

  // ----- Statements -----

  datatype Statement =
    | Read
    | InsertExecution(id: Id, row: Execution)
    | StampPolicy(id: Id, policy: Policy)
    | CreateInstance(id: Id)
    | MarkDispatched(id: Id)
    | MarkRunning(id: Id, now: int)
    | MarkSucceeded(id: Id, now: int, output: string)
    | FailBatch(id: Id, now: int, error: SafeError, status: Status)
    | MarkCancelling(id: Id)
    | ConfirmCancel(id: Id, now: int)
    | RollBack(id: Id, prior: Status)
    | BeginOperation(id: Id, name: string, position: nat, now: int)
    | FinishOperation(id: Id, name: string, now: int, output: string)
    | StorePolicy(key: PolicyKey, policy: Policy)

  const CANCEL_ERROR := SafeError("EXECUTION_CANCELLED", "The Execution was cancelled by its owner.")

  /** The row both insert statements write: undispatched and Pending. */
  function NewExecution(id: Id, saga: string, revision: string, input: string, now: int, policy: Option<Policy>): Execution {
    Execution(saga, revision, id.caller, input, ParentOf(id), StepOf(id), false, Pending, now, None, None, None, None, policy)
  }

  predicate HasStatus(db: Db, id: Id, statuses: set<Status>) {
    id in db.executions && db.executions[id].status in statuses
  }

  function Coalesce<T>(first: Option<T>, otherwise: T): Option<T> {
    if first.Some? then first else Some(otherwise)
  }

  /** What one UPDATE of the executions table does to the row its id selects; an unmet WHERE leaves the row alone. */
  function Rewrite(row: Execution, st: Statement): Execution {
    match st
    case StampPolicy(_, policy) => row.(policy := Some(policy))
    case MarkDispatched(_) => row.(dispatched := true)
    case MarkRunning(_, now) =>
      if row.status == Pending then row.(status := Running, startedAt := Coalesce(row.startedAt, now)) else row
    case MarkSucceeded(_, now, output) =>
      if row.status == Running then row.(status := Succeeded, completedAt := Some(now), result := Some(output)) else row
    case FailBatch(_, now, error, status) =>
      if row.status in {Pending, Running} then row.(status := status, completedAt := Some(now), error := Some(error)) else row
    case MarkCancelling(_) =>
      if row.status in {Pending, Running} then row.(status := Cancelling) else row
    case ConfirmCancel(_, now) =>
      if row.status == Cancelling then row.(status := Cancelled, completedAt := Some(now), error := Some(CANCEL_ERROR)) else row
    case RollBack(_, prior) =>
      if row.status == Cancelling then row.(status := prior) else row
    case _ => row
  }

  function ExecutionsAfter(executions: map<Id, Execution>, st: Statement): map<Id, Execution> {
    match st
    case Read => executions
    case StorePolicy(_, _) => executions
    case InsertExecution(id, row) => if id in executions then executions else executions[id := row]
    case _ => if st.id in executions then executions[st.id := Rewrite(executions[st.id], st)] else executions
  }

  /** The first statement of both terminal batches: every still-Running Operation of the Execution fails. */
  function FailOperation(op: Operation, now: int, error: SafeError): Operation {
    if op.status == OpRunning then op.(status := OpFailed, completedAt := Some(now), error := Some(error)) else op
  }

  function FailOperations(operations: map<OperationKey, Operation>, id: Id, now: int, error: SafeError): map<OperationKey, Operation> {
    map k | k in operations :: if k.execution == id then FailOperation(operations[k], now, error) else operations[k]
  }

  function OperationsAfter(operations: map<OperationKey, Operation>, st: Statement): map<OperationKey, Operation> {
    match st
    case FailBatch(id, now, error, _) => FailOperations(operations, id, now, error)
    case ConfirmCancel(id, now) => FailOperations(operations, id, now, CANCEL_ERROR)
    case BeginOperation(id, name, position, now) =>
      var k := OperationKey(id, name);
      if k !in operations
      then operations[k := Operation(position, OpRunning, now, None, None, None)]
      else if operations[k].status == OpRunning
      then operations[k := operations[k].(completedAt := None, result := None, error := None)]
      else operations
    case FinishOperation(id, name, now, output) =>
      var k := OperationKey(id, name);
      if k in operations && operations[k].status == OpRunning
      then operations[k := operations[k].(status := OpSucceeded, completedAt := Some(now), result := Some(output))]
      else operations
    case _ => operations
  }

  function Apply(db: Db, st: Statement): Db {
    Db(
      ExecutionsAfter(db.executions, st),
      OperationsAfter(db.operations, st),
      if st.StorePolicy? then db.policies[st.key := st.policy] else db.policies,
      if st.CreateInstance? then db.instances + {st.id} else db.instances)
  }

  /** What the code guarantees about a statement at the moment it issues it. */
  predicate Legal(db: Db, st: Statement) {
    match st
    case InsertExecution(id, row) =>
      && row == NewExecution(id, row.saga, row.revision, row.input, row.createdAt, row.policy)
      && (id.Child? ==> row.saga == id.saga && id.parent in db.executions)
    case CreateInstance(id) => id in db.executions
    case MarkDispatched(id) => id in db.instances
    case FailBatch(_, _, _, status) => status == Failed || status == TimedOut
    case RollBack(_, prior) => prior == Pending || prior == Running
    case _ => true
  }

  function Exec(db: Db, sts: seq<Statement>): Db
    decreases |sts|
  {
    if |sts| == 0 then db else Exec(Apply(db, sts[0]), sts[1..])
  }

  predicate LegalRun(db: Db, sts: seq<Statement>)
    decreases |sts|
  {
    |sts| == 0 || (Legal(db, sts[0]) && LegalRun(Apply(db, sts[0]), sts[1..]))
  }

  // ----- What every legal statement keeps -----

  predicate RowConsistent(db: Db, id: Id)
    requires id in db.executions
  {
    var row := db.executions[id];
    && row.caller == id.caller
    && row.parent == ParentOf(id)
    && row.parentStep == StepOf(id)
    && (id.Child? ==> row.saga == id.saga && id.parent in db.executions)
    && (row.dispatched ==> id in db.instances)
    && (row.result.Some? <==> row.status == Succeeded)
    && (row.error.Some? <==> row.status in {Failed, TimedOut, Cancelled})
    && (row.completedAt.Some? <==> IsTerminal(row.status))
  }

  predicate OperationConsistent(op: Operation) {
    && (op.result.Some? <==> op.status == OpSucceeded)
    && (op.error.Some? <==> op.status == OpFailed)
    && (op.completedAt.Some? <==> op.status != OpRunning)
  }

  ghost predicate Consistent(db: Db) {
    && (forall id :: id in db.executions ==> RowConsistent(db, id))
    && (forall k :: k in db.operations ==> OperationConsistent(db.operations[k]))
    && db.instances <= db.executions.Keys
  }

  /** The columns no statement ever rewrites. */
  predicate SameIdentity(before: Execution, after: Execution) {
    && before.saga == after.saga
    && before.revision == after.revision
    && before.caller == after.caller
    && before.input == after.input
    && before.parent == after.parent
    && before.parentStep == after.parentStep
    && before.createdAt == after.createdAt
  }

  /** A terminal row may still gain its dispatched marker or policy stamp, and nothing else. */
  predicate SameOutcome(before: Execution, after: Execution) {
    after == before.(dispatched := after.dispatched, policy := after.policy)
  }

  /** How the tables only ever grow. */
  ghost predicate Extends(before: Db, after: Db) {
    && before.executions.Keys <= after.executions.Keys
    && before.instances <= after.instances
    && (forall id :: id in before.executions ==> SameIdentity(before.executions[id], after.executions[id]))
    && (forall id :: id in before.executions && before.executions[id].dispatched ==> after.executions[id].dispatched)
    && (forall id :: id in before.executions && before.executions[id].startedAt.Some? ==>
          after.executions[id].startedAt == before.executions[id].startedAt)
    && (forall id :: id in before.executions && IsTerminal(before.executions[id].status) ==>
          SameOutcome(before.executions[id], after.executions[id]))
    && (forall k :: k in before.operations ==> k in after.operations)
    && (forall k :: k in before.operations && before.operations[k].status != OpRunning ==>
          after.operations[k] == before.operations[k])
  }

  lemma RewriteExtends(row: Execution, st: Statement)
    ensures SameIdentity(row, Rewrite(row, st))
    ensures row.dispatched ==> Rewrite(row, st).dispatched
    ensures row.startedAt.Some? ==> Rewrite(row, st).startedAt == row.startedAt
    ensures IsTerminal(row.status) ==> SameOutcome(row, Rewrite(row, st))
  {
  }

  lemma OperationsExtend(operations: map<OperationKey, Operation>, st: Statement)
    ensures forall k :: k in operations ==> k in OperationsAfter(operations, st)
    ensures forall k :: k in operations && operations[k].status != OpRunning ==> OperationsAfter(operations, st)[k] == operations[k]
  {
  }

  lemma StatementExtends(db: Db, st: Statement)
    ensures Extends(db, Apply(db, st))
  {
    var after := Apply(db, st);
    OperationsExtend(db.operations, st);
    forall id | id in db.executions
      ensures id in after.executions && after.executions[id] in {db.executions[id], Rewrite(db.executions[id], st)}
      ensures SameIdentity(db.executions[id], after.executions[id])
      ensures db.executions[id].dispatched ==> after.executions[id].dispatched
      ensures db.executions[id].startedAt.Some? ==> after.executions[id].startedAt == db.executions[id].startedAt
      ensures IsTerminal(db.executions[id].status) ==> SameOutcome(db.executions[id], after.executions[id])
    {
      RewriteExtends(db.executions[id], st);
    }
  }

  lemma ExtendsTransitive(a: Db, b: Db, c: Db)
    requires Extends(a, b) && Extends(b, c)
    ensures Extends(a, c)
  {
  }

  lemma StatementKeepsRow(db: Db, st: Statement, id: Id)
    requires Consistent(db) && Legal(db, st) && id in Apply(db, st).executions
    ensures RowConsistent(Apply(db, st), id)
  {
    if id in db.executions {
      var row := db.executions[id];
      assert Apply(db, st).executions[id] in {row, Rewrite(row, st)};
    }
  }

  lemma StatementKeepsConsistent(db: Db, st: Statement)
    requires Consistent(db) && Legal(db, st)
    ensures Consistent(Apply(db, st))
  {
    forall id | id in Apply(db, st).executions ensures RowConsistent(Apply(db, st), id) {
      StatementKeepsRow(db, st, id);
    }
  }

  lemma {:induction false} RunKeepsConsistent(db: Db, sts: seq<Statement>)
    requires Consistent(db) && LegalRun(db, sts)
    ensures Consistent(Exec(db, sts))
    decreases |sts|
  {
    if |sts| > 0 {
      StatementKeepsConsistent(db, sts[0]);
      RunKeepsConsistent(Apply(db, sts[0]), sts[1..]);
    }
  }

  /** Terminal rows, row identity, dispatched markers and settled Operations survive every run of statements,
    * legal or not; a start time, once set, is kept. */
  lemma {:induction false} RunExtends(db: Db, sts: seq<Statement>)
    ensures Extends(db, Exec(db, sts))
    decreases |sts|
  {
    if |sts| > 0 {
      StatementExtends(db, sts[0]);
      RunExtends(Apply(db, sts[0]), sts[1..]);
      ExtendsTransitive(db, Apply(db, sts[0]), Exec(db, sts));
    }
  }

  // ----- Status changes -----

  /** The transition table and the two changes missing from it: the compensating rollback, and a timeout checkpoint that
    * lands on a Pending row. */
  predicate Changes(from: Status, to: Status) {
    || CanTransition(from, to)
    || (from == Cancelling && to in {Pending, Running})
    || (from == Pending && to == TimedOut)
  }

  /** The statement changes the status of this row from one to the other. */
  ghost predicate Makes(db: Db, st: Statement, id: Id, from: Status, to: Status) {
    && Consistent(db) && Legal(db, st) && id in db.executions && id in Apply(db, st).executions
    && db.executions[id].status == from && Apply(db, st).executions[id].status == to
  }

  /** No legal statement changes a status in any other way, and only a rollback or a timeout makes the two extra changes. */
  lemma StatusChanges(db: Db, st: Statement, id: Id)
    requires Consistent(db) && Legal(db, st) && id in db.executions
    ensures id in Apply(db, st).executions
    ensures var from, to := db.executions[id].status, Apply(db, st).executions[id].status;
      && (from == to || Changes(from, to))
      && (from == Cancelling && to in {Pending, Running} ==> st == RollBack(id, to))
      && (from == Pending && to == TimedOut ==> st.FailBatch? && st.id == id && st.status == TimedOut)
  {
  }

  /** A statement that makes each of them. */
  function Maker(id: Id, to: Status): Statement {
    match to
    case Pending => RollBack(id, Pending)
    case Running => MarkRunning(id, 0)
    case Succeeded => MarkSucceeded(id, 0, "")
    case Failed => FailBatch(id, 0, CANCEL_ERROR, Failed)
    case TimedOut => FailBatch(id, 0, CANCEL_ERROR, TimedOut)
    case Cancelling => MarkCancelling(id)
    case Cancelled => ConfirmCancel(id, 0)
  }

  /** Exactly these status changes happen. */
  lemma StatusChangesExactly(from: Status, to: Status)
    requires from != to
    ensures (exists db, st, id :: Makes(db, st, id, from, to)) <==> Changes(from, to)
  {
    if Changes(from, to) {
      var id := Top(Principal("", ""), "");
      var row := NewExecution(id, "", "", "", 0, None).(status := from);
      var db := EMPTY.(executions := map[id := row]);
      var st := if from == Cancelling && to == Running then RollBack(id, Running) else Maker(id, to);
      assert IsActive(from) && RowConsistent(db, id);
      assert Makes(db, st, id, from, to);
    } else {
      forall db, st, id | Makes(db, st, id, from, to) ensures false {
        StatusChanges(db, st, id);
      }
    }
  }

  /** A single Operation only moves as its own table allows. */
  lemma OperationChanges(db: Db, st: Statement, k: OperationKey)
    requires k in db.operations
    ensures k in Apply(db, st).operations
    ensures var from, to := db.operations[k].status, Apply(db, st).operations[k].status;
      from == to || (from == OpRunning && (to == OpSucceeded || to == OpFailed))
  {
  }

  predicate RollsBack(sts: seq<Statement>, id: Id) {
    |sts| > 0 && ((sts[0].RollBack? && sts[0].id == id) || RollsBack(sts[1..], id))
  }

  predicate Confirms(sts: seq<Statement>, id: Id) {
    |sts| > 0 && ((sts[0].ConfirmCancel? && sts[0].id == id) || Confirms(sts[1..], id))
  }

  /** Owner-cancel wins: once the Cancelling marker is written and as long as nobody rolls it back, every other
    * checkpoint is a no-op on the row, which ends Cancelled exactly when a confirmation is among the statements. */
  lemma {:induction false} CancelWins(db: Db, sts: seq<Statement>, id: Id)
    requires HasStatus(db, id, {Cancelling, Cancelled}) && !RollsBack(sts, id)
    ensures HasStatus(Exec(db, sts), id, {Cancelling, Cancelled})
    ensures HasStatus(Exec(db, sts), id, {Cancelled}) <==> HasStatus(db, id, {Cancelled}) || Confirms(sts, id)
    ensures Exec(db, sts).executions[id].result == db.executions[id].result
    decreases |sts|
  {
    if |sts| > 0 {
      CancelWins(Apply(db, sts[0]), sts[1..], id);
    }
  }

  // ----- Lineage -----

  /** The row `n` parent links above a row, followed through the stored parent column. */
  function Ancestor(db: Db, id: Id, n: nat): Option<Id>
    decreases n
  {
    if id !in db.executions then None
    else if n == 0 then Some(id)
    else
      match db.executions[id].parent
      case None => None
      case Some(parent) => Ancestor(db, parent, n - 1)
  }

  /** Stored parent links form a forest: climbing from a row always meets existing rows, strictly less deep at
    * each link, and stops at a top-level row after exactly `Depth(id)` links. */
  lemma {:induction false} ParentsFormForest(db: Db, id: Id, n: nat)
    requires Consistent(db) && id in db.executions
    ensures Ancestor(db, id, n).Some? <==> n <= Depth(id)
    ensures n <= Depth(id) ==>
      var above := Ancestor(db, id, n).value;
      && above in db.executions
      && Depth(above) == Depth(id) - n
      && (n > 0 ==> above != id)
      && (n == Depth(id) <==> above.Top?)
    decreases n
  {
    assert RowConsistent(db, id);
    if n > 0 {
      match id
      case Top(_, _) => assert Ancestor(db, id, n).None?;
      case Child(_, parent, _, _, _) =>
        assert parent in db.executions && db.executions[id].parent == Some(parent);
        assert Ancestor(db, id, n) == Ancestor(db, parent, n - 1);
        ParentsFormForest(db, parent, n - 1);
        assert Depth(id) == Depth(parent) + 1;
    }
  }

}
