/** A parent Saga waiting for one child: the poll loop over the child's row, and why every wait on one child gives the
  * same answer. */
module ChildAwait {

  import opened Wrappers
  import opened Identity
  import opened Ledger
  import opened Submission
  import opened SubmissionSafety

  const MAX_AWAIT_MS := 9000
  const POLL_INTERVAL_MS := 1000

  datatype Receipt = Receipt(id: Id, saga: string)

  /** What one SELECT of the child's row saw, and the clock right after it. */
  datatype Poll = Poll(row: Option<Execution>, clock: int)

  /** `Waiting` continues the loop; everything else ends it. */
  datatype Answer =
    | Value(result: Option<string>)
    | ResultCorrupt
    | ChildFailed(status: Status, error: Option<SafeError>)
    | ExecutionNotFound
    | ReceiptInvalid
    | AwaitInvalid
    | AwaitTimeout
    | Waiting

  predicate TimeoutOk(timeoutMs: int) {
    0 < timeoutMs <= MAX_AWAIT_MS
  }

  /** A missing result reads as null. */
  predicate IsReadable(result: Option<string>, readable: string -> bool) {
    result.None? || readable(result.value)
  }

  /** What one pass of the loop body concludes; `readable` says which stored results parse back to a serialisable value. */
  function Verdict(parent: Id, receipt: Receipt, deadline: int, readable: string -> bool, poll: Poll): Answer {
    match poll.row
    case None => ExecutionNotFound
    case Some(row) =>
      if row.parent != Some(parent) || row.saga != receipt.saga then ReceiptInvalid
      else if row.status == Succeeded then if IsReadable(row.result, readable) then Value(row.result) else ResultCorrupt
      else if IsTerminal(row.status) then ChildFailed(row.status, row.error)
      else if poll.clock >= deadline then AwaitTimeout
      else Waiting
  }

  predicate IsOwn(row: Execution, parent: Id, receipt: Receipt) {
    row.parent == Some(parent) && row.saga == receipt.saga
  }

  /** The answer belongs to what this poll saw. */
  ghost predicate Answers(answer: Answer, parent: Id, receipt: Receipt, deadline: int, readable: string -> bool, poll: Poll) {
    match answer
    case ExecutionNotFound => poll.row.None?
    case ReceiptInvalid => poll.row.Some? && !IsOwn(poll.row.value, parent, receipt)
    case Value(result) =>
      && poll.row.Some? && IsOwn(poll.row.value, parent, receipt) && poll.row.value.status == Succeeded
      && result == poll.row.value.result && (result.Some? ==> readable(result.value))
    case ResultCorrupt =>
      && poll.row.Some? && IsOwn(poll.row.value, parent, receipt) && poll.row.value.status == Succeeded
      && poll.row.value.result.Some? && !readable(poll.row.value.result.value)
    case ChildFailed(status, error) =>
      && poll.row.Some? && IsOwn(poll.row.value, parent, receipt)
      && status == poll.row.value.status && error == poll.row.value.error && status in {Failed, TimedOut, Cancelled}
    case AwaitTimeout =>
      && poll.row.Some? && IsOwn(poll.row.value, parent, receipt)
      && poll.row.value.status in {Pending, Running, Cancelling} && poll.clock >= deadline
    case Waiting =>
      && poll.row.Some? && IsOwn(poll.row.value, parent, receipt)
      && poll.row.value.status in {Pending, Running, Cancelling} && poll.clock < deadline
    case AwaitInvalid => false
  }

  /** Exactly one answer belongs to a poll. */
  lemma VerdictAnswers(parent: Id, receipt: Receipt, deadline: int, readable: string -> bool, poll: Poll, answer: Answer)
    ensures Answers(answer, parent, receipt, deadline, readable, poll) <==> answer == Verdict(parent, receipt, deadline, readable, poll)
  {
  }

  /** Every sleep between two polls lasts at least the poll interval. */
  predicate SleepsFully(start: int, polls: seq<Poll>) {
    && (|polls| > 0 ==> polls[0].clock >= start)
    && forall i :: 0 < i < |polls| ==> polls[i].clock >= polls[i - 1].clock + 1000
  }

  /** The polls the loop may make, in order. It stops at the first one that settles the wait. When each sleep lasts its
    * full second it makes at most ceil(timeoutMs / 1000) + 1 reads, and that many always suffice. */
  method AwaitChildResult(parent: Id, receipt: Receipt, timeoutMs: int, start: int, readable: string -> bool, polls: seq<Poll>)
    returns (answer: Answer, count: nat)
    ensures !TimeoutOk(timeoutMs) ==> answer == AwaitInvalid && count == 0
    ensures TimeoutOk(timeoutMs) ==>
      && count <= |polls|
      && (forall i :: 0 <= i < count - 1 ==> Verdict(parent, receipt, start + timeoutMs, readable, polls[i]) == Waiting)
      && (answer == Waiting ==> count == |polls| && forall i :: 0 <= i < count ==> Verdict(parent, receipt, start + timeoutMs, readable, polls[i]) == Waiting)
      && (answer != Waiting ==> count > 0 && Verdict(parent, receipt, start + timeoutMs, readable, polls[count - 1]) == answer)
    ensures answer == AwaitInvalid <==> !(0 < timeoutMs <= 9000)
    ensures answer != AwaitInvalid && answer != Waiting ==>
      count > 0 && Answers(answer, parent, receipt, start + timeoutMs, readable, polls[count - 1])
    ensures answer != AwaitInvalid ==>
      forall i :: 0 <= i < (if answer == Waiting then |polls| else count - 1) ==>
        Answers(Waiting, parent, receipt, start + timeoutMs, readable, polls[i])
    ensures 0 < timeoutMs <= 9000 && SleepsFully(start, polls) ==>
      var bound := (timeoutMs + 999) / 1000 + 1;
      count <= bound && (|polls| >= bound ==> answer != Waiting)
  {
    if timeoutMs <= 0 || timeoutMs > MAX_AWAIT_MS {
      return AwaitInvalid, 0;
    }
    var deadline := start + timeoutMs;
    count := 0;
    while count < |polls|
      invariant count <= |polls|
      invariant forall i :: 0 <= i < count ==> Verdict(parent, receipt, deadline, readable, polls[i]) == Waiting
      invariant SleepsFully(start, polls) && count > 0 ==>
        start + (count - 1) * POLL_INTERVAL_MS <= polls[count - 1].clock < deadline
    {
      var poll := polls[count];
      count := count + 1;
      if poll.row.None? {
        return ExecutionNotFound, count;
      }
      var row := poll.row.value;
      if row.parent != Some(parent) || row.saga != receipt.saga {
        return ReceiptInvalid, count;
      }
      if row.status == Succeeded {
        return if row.result.None? || readable(row.result.value) then Value(row.result) else ResultCorrupt, count;
      }
      if IsTerminal(row.status) {
        return ChildFailed(row.status, row.error), count;
      }
      if poll.clock >= deadline {
        return AwaitTimeout, count;
      }
    }
    answer := Waiting;
  }

  // ----- Waits inside the running system -----

  /** The read is scoped to the caller: a row of anybody else is not found. */
  function VisibleRow(db: Db, id: Id, caller: Principal): Option<Execution> {
    if id in db.executions && db.executions[id].caller == caller then Some(db.executions[id]) else None
  }

  /** In every reachable state a wait that ends with a value, a corrupt result or a child failure read this parent's own child: the id
    * itself names that parent, caller and Saga, a value is the result recorded there, and a failure its status and error. */
  lemma AnswersAreOwn(es: seq<Event>, parent: Id, receipt: Receipt, caller: Principal, deadline: int, readable: string -> bool, clock: int)
    ensures var answer := Verdict(parent, receipt, deadline, readable, Poll(VisibleRow(Run(INITIAL, es).db, receipt.id, caller), clock));
      answer.Value? || answer.ResultCorrupt? || answer.ChildFailed? ==>
        && receipt.id.Child? && receipt.id.parent == parent && receipt.id.caller == caller && receipt.id.saga == receipt.saga
        && receipt.id in Run(INITIAL, es).db.executions
        && (answer.Value? ==>
              var row := Run(INITIAL, es).db.executions[receipt.id];
              row.status == Succeeded && answer.result == row.result && row.result.Some? && readable(row.result.value))
        && (answer.ResultCorrupt? ==>
              var row := Run(INITIAL, es).db.executions[receipt.id];
              row.status == Succeeded && row.result.Some? && !readable(row.result.value))
        && (answer.ChildFailed? ==>
              var row := Run(INITIAL, es).db.executions[receipt.id];
              row.status in {Failed, TimedOut, Cancelled} && answer == ChildFailed(row.status, row.error) && row.error.Some?)
  {
    InitialInv();
    RunKeepsInv(INITIAL, es);
    var s := Run(INITIAL, es);
    if receipt.id in s.db.executions {
      assert RowConsistent(s.db, receipt.id);
    }
  }

  /** Once one wait on a child has its value or failure, every later poll of the same receipt, however late and
    * whatever happened in between, gives the same one. */
  lemma LaterPollsAgree(before: seq<Event>, between: seq<Event>, parent: Id, receipt: Receipt, caller: Principal,
                        readable: string -> bool, first: (int, int), second: (int, int))
    ensures var s := Run(INITIAL, before);
      var answer := Verdict(parent, receipt, first.0, readable, Poll(VisibleRow(s.db, receipt.id, caller), first.1));
      var later := Verdict(parent, receipt, second.0, readable, Poll(VisibleRow(Run(s, between).db, receipt.id, caller), second.1));
      answer.Value? || answer.ResultCorrupt? || answer.ChildFailed? ==> later == answer
  {
    var s := Run(INITIAL, before);
    if receipt.id in s.db.executions && IsTerminal(s.db.executions[receipt.id].status) {
      OutcomesAreFinal(before, between, receipt.id);
    }
  }

}
