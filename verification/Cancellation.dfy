/** Cancellation with its compensating rollback: when the rollback restores what its marker replaced, and what a confirmed
  * cancel guarantees. */
module Cancellation {

  import opened Wrappers
  import opened Identity
  import opened Ledger
  import opened Submission
  import opened SubmissionSafety

  /** In every reachable state a step changes a row's status only along the transition table, except for a canceller
    * undoing its own marker and for a timeout checkpoint that finds its row Pending. */
  lemma StepFollowsTable(es: seq<Event>, e: Event, id: Id)
    requires id in Run(INITIAL, es).db.executions
    ensures var s := Run(INITIAL, es);
      && id in Step(s, e).db.executions
      && var from, to := s.db.executions[id].status, Step(s, e).db.executions[id].status;
         || from == to
         || CanTransition(from, to)
         || (from == Cancelling && to in {Pending, Running} && e.Advance? && e.client in s.clients && s.clients[e.client] == CancelRollback(id, to))
         || (from == Pending && to == TimedOut && e.Fail? && e.id == id && IsTimeoutError(e.error))
  {
    var s := Run(INITIAL, es);
    InitialInv();
    RunKeepsInv(INITIAL, es);
    IssuedStatementIsLegal(s, e);
    StatusChanges(s.db, StatementOf(s, e), id);
    RollbackOrigin(s, e, id);
    TimeoutOrigin(s, e, id);
  }

  lemma RollbackOrigin(s: State, e: Event, id: Id)
    ensures forall to :: StatementOf(s, e) == RollBack(id, to) ==>
      e.Advance? && e.client in s.clients && s.clients[e.client] == CancelRollback(id, to)
  {
  }

  lemma TimeoutOrigin(s: State, e: Event, id: Id)
    ensures var st := StatementOf(s, e);
      st.FailBatch? && st.id == id && st.status == TimedOut ==> e.Fail? && e.id == id && IsTimeoutError(e.error)
  {
  }

  /** While the marker stands, only a rollback or a confirmation moves the row. */
  lemma {:induction false} MarkerStands(db: Db, during: seq<Statement>, id: Id)
    requires HasStatus(db, id, {Cancelling}) && !RollsBack(during, id) && !Confirms(during, id)
    ensures HasStatus(Exec(db, during), id, {Cancelling})
    decreases |during|
  {
    if |during| > 0 {
      MarkerStands(Apply(db, during[0]), during[1..], id);
    }
  }

  // ----- Marker holders -----

  /** Between its marker and the end of its request a canceller holds the row. */
  predicate Holds(phase: Phase, id: Id) {
    match phase
    case CancelStop(x, _, _) => x == id
    case CancelConfirm(x) => x == id
    case CancelRollback(x, _) => x == id
    case _ => false
  }

  ghost predicate OneHolder(s: State) {
    && (forall c, id :: c in s.clients && Holds(s.clients[c], id) ==> HasStatus(s.db, id, {Cancelling}))
    && (forall c, d, id :: c in s.clients && d in s.clients && Holds(s.clients[c], id) && Holds(s.clients[d], id) ==> c == d)
  }

  /** A client becomes a holder only by a marker that lands, so on a row nobody holds. */
  lemma HolderOrigin(s: State, e: Event, c: nat, id: Id)
    requires c in Step(s, e).clients && Holds(Step(s, e).clients[c], id)
    ensures c in s.clients
    ensures Holds(s.clients[c], id) || (e.Advance? && e.client == c && StatementOf(s, e) == MarkCancelling(id) && HasStatus(s.db, id, {Pending, Running}))
    ensures Holds(s.clients[c], id) && e.Advance? && e.client == c ==> StatementOf(s, e) == Read
  {
  }

  /** Only a holder takes a row out of Cancelling. */
  lemma CancellingStays(s: State, e: Event, id: Id)
    requires HasStatus(s.db, id, {Cancelling})
    requires e.Advance? && e.client in s.clients ==> !Holds(s.clients[e.client], id) || StatementOf(s, e) == Read
    ensures HasStatus(Step(s, e).db, id, {Cancelling})
  {
  }

  lemma StepKeepsOneHolder(s: State, e: Event)
    requires OneHolder(s)
    ensures OneHolder(Step(s, e))
  {
    var s' := Step(s, e);
    forall c, id | c in s'.clients && Holds(s'.clients[c], id) ensures HasStatus(s'.db, id, {Cancelling}) {
      HolderOrigin(s, e, c, id);
      if Holds(s.clients[c], id) {
        CancellingStays(s, e, id);
      } else {
        assert s'.db == Apply(s.db, MarkCancelling(id));
      }
    }
    forall c, d, id | c in s'.clients && d in s'.clients && Holds(s'.clients[c], id) && Holds(s'.clients[d], id) ensures c == d {
      HolderOrigin(s, e, c, id);
      HolderOrigin(s, e, d, id);
      assert Holds(s.clients[c], id) || Holds(s.clients[d], id) ==> HasStatus(s.db, id, {Cancelling});
    }
  }

  /** No two cancellers ever hold one row, and a held row is Cancelling. */
  lemma {:induction false} RunKeepsOneHolder(s: State, es: seq<Event>)
    requires OneHolder(s)
    ensures OneHolder(Run(s, es))
    decreases |es|
  {
    if |es| > 0 {
      StepKeepsOneHolder(s, es[0]);
      RunKeepsOneHolder(Step(s, es[0]), es[1..]);
    }
  }

  // ----- The status at the marker -----

  /** The active status a row has once some statements ran, provided it is active again: the last prepare step or rollback
    * among them decides. */
  function ActiveStatus(from: Status, sts: seq<Statement>, id: Id): Status
    decreases |sts|
  {
    if |sts| == 0 then from else ActiveStatus(NextActive(from, sts[0], id), sts[1..], id)
  }

  function NextActive(from: Status, st: Statement, id: Id): Status {
    match st
    case MarkRunning(x, _) => if x == id then Running else from
    case RollBack(x, prior) => if x == id then prior else from
    case _ => from
  }

  /** `a` is the status of the row whenever it is active. */
  predicate IfActive(db: Db, id: Id, a: Status) {
    id in db.executions && (db.executions[id].status in {Pending, Running} ==> db.executions[id].status == a)
  }

  lemma StatementFoldsStatus(db: Db, st: Statement, id: Id, a: Status)
    requires IfActive(db, id, a)
    requires st.RollBack? && st.id == id ==> HasStatus(db, id, {Cancelling})
    requires st.FailBatch? ==> st.status == Failed || st.status == TimedOut
    ensures IfActive(Apply(db, st), id, NextActive(a, st, id))
  {
    var row := db.executions[id];
    assert id in Apply(db, st).executions && Apply(db, st).executions[id] in {row, Rewrite(row, st)};
  }

  lemma StepFoldsStatus(s: State, e: Event, id: Id, a: Status)
    requires OneHolder(s) && IfActive(s.db, id, a)
    ensures IfActive(Step(s, e).db, id, NextActive(a, StatementOf(s, e), id))
  {
    var st := StatementOf(s, e);
    if st.RollBack? && st.id == id {
      RollbackOrigin(s, e, id);
      assert st == RollBack(id, st.prior);
      assert Holds(s.clients[e.client], id);
    }
    StatementFoldsStatus(s.db, st, id, a);
  }

  lemma {:induction false} RunFoldsStatus(s: State, es: seq<Event>, id: Id, a: Status)
    requires OneHolder(s) && IfActive(s.db, id, a)
    ensures IfActive(Run(s, es).db, id, ActiveStatus(a, Trace(s, es), id))
    decreases |es|
  {
    if |es| > 0 {
      StepFoldsStatus(s, es[0], id, a);
      StepKeepsOneHolder(s, es[0]);
      RunFoldsStatus(Step(s, es[0]), es[1..], id, NextActive(a, StatementOf(s, es[0]), id));
      assert Trace(s, es)[0] == StatementOf(s, es[0]) && Trace(s, es)[1..] == Trace(Step(s, es[0]), es[1..]);
    }
  }

  // ----- The rollback -----

  predicate NoCrash(es: seq<Event>, c: nat) {
    forall i :: 0 <= i < |es| ==> es[i] != Crash(c)
  }

  predicate Rests(es: seq<Event>, c: nat) {
    forall i :: 0 <= i < |es| ==> es[i] != Crash(c) && !(es[i].Advance? && es[i].client == c)
  }

  lemma {:induction false} RestsStays(s: State, es: seq<Event>, c: nat)
    requires c in s.clients && Rests(es, c)
    ensures c in Run(s, es).clients && Run(s, es).clients[c] == s.clients[c]
    decreases |es|
  {
    if |es| > 0 {
      assert es[0] == es[0];
      assert Rests(es[1..], c) by {
        forall i | 0 <= i < |es[1..]| ensures es[1..][i] != Crash(c) && !(es[1..][i].Advance? && es[1..][i].client == c) {
          assert es[1..][i] == es[i + 1];
        }
      }
      RestsStays(Step(s, es[0]), es[1..], c);
    }
  }

  /** Where a canceller can be once its marker landed with this prior status. */
  predicate Marked(phase: Phase, id: Id, prior: Status) {
    match phase
    case CancelStop(x, p, _) => x == id && p == prior
    case CancelRollback(x, p) => x == id && p == prior
    case CancelConfirm(x) => x == id
    case CancelDone(x, _) => x == id
    case _ => false
  }

  lemma {:induction false} MarkedStays(s: State, es: seq<Event>, c: nat, id: Id, prior: Status)
    requires c in s.clients && Marked(s.clients[c], id, prior) && NoCrash(es, c)
    ensures c in Run(s, es).clients && Marked(Run(s, es).clients[c], id, prior)
    decreases |es|
  {
    if |es| > 0 {
      assert es[0] != Crash(c);
      assert NoCrash(es[1..], c) by {
        forall i | 0 <= i < |es[1..]| ensures es[1..][i] != Crash(c) {
          assert es[1..][i] == es[i + 1];
        }
      }
      MarkedStays(Step(s, es[0]), es[1..], c, id, prior);
    }
  }

  /** One whole cancel inside a run: client `c` reads the row after `before`, `between` runs, its marker lands, `during`
    * runs up to where the answer was ambiguous, and the rollback comes next. Everybody else does anything throughout. */
  datatype Cancel = Cancel(before: seq<Event>, c: nat, id: Id, read: World, between: seq<Event>, mark: World, during: seq<Event>, last: World)
  {
    function AtRead(): State { Run(INITIAL, before) }

    function AtMarker(): State { Run(Step(AtRead(), Advance(c, read)), between) }

    function AtRollback(): State { Run(Step(AtMarker(), Advance(c, mark)), during) }

    function RolledBack(): State { Step(AtRollback(), Advance(c, last)) }

    predicate Happens() {
      && c in AtRead().clients && AtRead().clients[c] == CancelRead(id)
      && HasStatus(AtRead().db, id, {Pending, Running})
      && Rests(between, c)
      && HasStatus(AtMarker().db, id, {Pending, Running})
      && NoCrash(during, c)
      && c in AtRollback().clients && AtRollback().clients[c].CancelRollback?
    }

    /** What the canceller read. */
    function Prior(): Status
      requires Happens()
    {
      AtRead().db.executions[id].status
    }

    /** What everybody's statements between read and marker make of it. */
    function Replaced(): Status
      requires Happens()
    {
      ActiveStatus(Prior(), Trace(Step(AtRead(), Advance(c, read)), between), id)
    }
  }

  lemma ReachableHolders(es: seq<Event>)
    ensures OneHolder(Run(INITIAL, es))
  {
    RunKeepsOneHolder(INITIAL, es);
  }

  /** What holds right after the read. */
  lemma AfterRead(k: Cancel)
    requires k.Happens()
    ensures var s1 := Step(k.AtRead(), Advance(k.c, k.read));
      && OneHolder(s1) && IfActive(s1.db, k.id, k.Prior())
      && k.c in s1.clients && s1.clients[k.c].CancelMark? && s1.clients[k.c].id == k.id && s1.clients[k.c].prior == k.Prior()
  {
    ReachableHolders(k.before);
    StepKeepsOneHolder(k.AtRead(), Advance(k.c, k.read));
  }

  /** At its marker the row has the status that prepare steps and other cancellers' rollbacks since the read left. */
  lemma StatusAtMarker(k: Cancel)
    requires k.Happens()
    ensures k.AtMarker().db.executions[k.id].status == k.Replaced()
    ensures k.c in k.AtMarker().clients && k.AtMarker().clients[k.c].CancelMark?
    ensures k.AtMarker().clients[k.c].id == k.id && k.AtMarker().clients[k.c].prior == k.Prior()
    ensures OneHolder(k.AtMarker())
  {
    var s1 := Step(k.AtRead(), Advance(k.c, k.read));
    AfterRead(k);
    RestsStays(s1, k.between, k.c);
    RunFoldsStatus(s1, k.between, k.id, k.Prior());
    RunKeepsOneHolder(s1, k.between);
  }

  /** When the rollback comes the row is still under this canceller's marker. */
  lemma StillMarked(k: Cancel)
    requires k.Happens()
    ensures k.AtRollback().clients[k.c] == CancelRollback(k.id, k.Prior())
    ensures HasStatus(k.AtRollback().db, k.id, {Cancelling})
  {
    StatusAtMarker(k);
    var s := k.AtMarker();
    var marked := Step(s, Advance(k.c, k.mark));
    MarkerLands(s, k.c, k.mark, k.id, k.Prior());
    MarkedStays(marked, k.during, k.c, k.id, k.Prior());
    StepKeepsOneHolder(s, Advance(k.c, k.mark));
    RunKeepsOneHolder(marked, k.during);
    assert Holds(k.AtRollback().clients[k.c], k.id);
  }

  lemma MarkerLands(s: State, c: nat, w: World, id: Id, prior: Status)
    requires c in s.clients && s.clients[c].CancelMark? && s.clients[c].id == id && s.clients[c].prior == prior
    requires HasStatus(s.db, id, {Pending, Running})
    ensures c in Step(s, Advance(c, w)).clients && Marked(Step(s, Advance(c, w)).clients[c], id, prior)
  {
  }

  lemma RollbackStep(s: State, c: nat, w: World, id: Id, prior: Status)
    requires c in s.clients && s.clients[c] == CancelRollback(id, prior) && HasStatus(s.db, id, {Cancelling})
    ensures HasStatus(Step(s, Advance(c, w)).db, id, {prior})
  {
  }

  /** So the rollback writes what its canceller read. */
  lemma RollbackWritesPrior(k: Cancel)
    requires k.Happens()
    ensures k.id in k.RolledBack().db.executions && k.RolledBack().db.executions[k.id].status == k.Prior()
  {
    StillMarked(k);
    RollbackStep(k.AtRollback(), k.c, k.last, k.id, k.Prior());
  }

  /** In every run the rollback restores the status its marker replaced exactly when the statements between read and marker
    * leave an active row as the canceller read it: with no prepare step and no other rollback among them, always. */
  lemma RollbackIsExact(k: Cancel)
    requires k.Happens()
    ensures k.id in k.RolledBack().db.executions
    ensures k.RolledBack().db.executions[k.id].status == k.AtMarker().db.executions[k.id].status <==> k.Replaced() == k.Prior()
  {
    StatusAtMarker(k);
    RollbackWritesPrior(k);
  }

  /** When the marker replaced Running, a success checkpoint after the rollback is recorded exactly when the canceller had
    * itself read Running; otherwise it finds the row Pending and is silently dropped. */
  lemma SuccessSurvivesRollback(k: Cancel, now: int, output: string)
    requires k.Happens() && k.Replaced() == Running
    ensures var after := Apply(k.RolledBack().db, MarkSucceeded(k.id, now, output));
      && HasStatus(after, k.id, {Succeeded, Pending})
      && (HasStatus(after, k.id, {Succeeded}) <==> k.Prior() == Running)
      && (HasStatus(after, k.id, {Succeeded}) ==> after.executions[k.id].result == Some(output))
  {
    RollbackWritesPrior(k);
  }

  // ----- What a confirmed cancel guarantees -----

  /** What the cancel does guarantee: whatever runs afterwards, the row stays Cancelled without a result, every prepare
    * that reads it fails, and so does every submit that reads it. */
  lemma CancelledNeverRuns(before: seq<Event>, after: seq<Event>, id: Id, w: World)
    requires HasStatus(Run(INITIAL, before).db, id, {Cancelled})
    ensures var s := Run(Run(INITIAL, before), after);
      && HasStatus(s.db, id, {Cancelled}) && s.db.executions[id].result.None?
      && (forall saga, revision :: Resume(s.db, PrepareRead(id, saga, revision), w) == PrepareFailed(id))
      && (forall req: Request, stamp, created :: req.id == id && Resume(s.db, Reread(req, stamp, created), w).Stamp? ==>
            Resume(s.db, Resume(s.db, Reread(req, stamp, created), w), w).Refused?)
  {
    CancelledStays(before, after, id);
    CancelledIsRefused(Run(Run(INITIAL, before), after).db, id, w);
  }

  lemma CancelledStays(before: seq<Event>, after: seq<Event>, id: Id)
    requires HasStatus(Run(INITIAL, before).db, id, {Cancelled})
    ensures HasStatus(Run(Run(INITIAL, before), after).db, id, {Cancelled})
    ensures Run(Run(INITIAL, before), after).db.executions[id].result.None?
  {
    InitialInv();
    RunKeepsInv(INITIAL, before);
    assert RowConsistent(Run(INITIAL, before).db, id);
    OutcomesAreFinal(before, after, id);
  }

  lemma CancelledIsRefused(db: Db, id: Id, w: World)
    requires HasStatus(db, id, {Cancelled})
    ensures forall saga, revision :: Resume(db, PrepareRead(id, saga, revision), w) == PrepareFailed(id)
    ensures forall req: Request, stamp, created :: req.id == id && Resume(db, Reread(req, stamp, created), w).Stamp? ==>
      Resume(db, Resume(db, Reread(req, stamp, created), w), w).Refused?
  {
  }

}
