/** Safety of submission, dispatch and cancellation over every interleaving of every client. */
module SubmissionSafety {

  import opened Wrappers
  import opened Sets
  import opened Identity
  import opened Ledger
  import opened Submission

  // ----- The inductive invariant -----

  predicate Matches(db: Db, req: Request) {
    && req.id in db.executions
    && db.executions[req.id].saga == req.saga
    && db.executions[req.id].input == req.input
  }

  /** A row read earlier agrees with the stored row on the columns nothing rewrites; a dispatched one has an instance. */
  predicate Seen(db: Db, req: Request, seen: Execution) {
    && Matches(db, req)
    && SameIdentity(seen, db.executions[req.id])
    && (seen.dispatched ==> req.id in db.instances)
  }

  predicate RequestPhaseOk(db: Db, admitted: set<Id>, phase: Phase)
    requires phase.Snapshot? || phase.Insert? || phase.Reread? || phase.Stamp? || phase.GatePolicy? || phase.GateCount? ||
             phase.Launch? || phase.Confirm? || phase.Submitted? || phase.Refused?
  {
    && RequestOk(phase.req)
    && (phase.req.id.Child? ==> phase.req.id.parent in db.executions)
    && match phase
       case Reread(req, _, created) => req.id in db.executions
       case Stamp(req, _, _, seen) => Seen(db, req, seen)
       case GatePolicy(req, _, seen) => Seen(db, req, seen)
       case GateCount(req, _, seen, _) => Seen(db, req, seen)
       case Launch(req, _, seen) => Seen(db, req, seen) && req.id in admitted
       case Confirm(req, _, seen) => Seen(db, req, seen) && req.id in db.instances
       case Submitted(req, _) => Matches(db, req) && req.id in db.instances
       case _ => true
  }

  predicate PhaseOk(db: Db, admitted: set<Id>, phase: Phase) {
    match phase
    case CancelMark(_, prior, _) => prior == Pending || prior == Running
    case CancelStop(_, prior, _) => prior == Pending || prior == Running
    case CancelRollback(_, prior) => prior == Pending || prior == Running
    case PrepareRead(_, _, _) => true
    case PrepareMark(_, _) => true
    case PrepareBegin(_, _) => true
    case PrepareFinish(_, _) => true
    case Prepared(_, _) => true
    case PrepareFailed(_) => true
    case CancelRead(_) => true
    case CancelConfirm(_) => true
    case CancelDone(_, _) => true
    case _ => RequestPhaseOk(db, admitted, phase)
  }

  /** This client's insert is the one that wrote the row under `id`. */
  predicate Created(phase: Phase, id: Id) {
    match phase
    case Reread(req, _, created) => created && req.id == id
    case Stamp(req, _, created, _) => created && req.id == id
    case GatePolicy(req, created, _) => created && req.id == id
    case GateCount(req, created, _, _) => created && req.id == id
    case Launch(req, created, _) => created && req.id == id
    case Confirm(req, created, _) => created && req.id == id
    case Submitted(req, replayed) => id.Top? && !replayed && req.id == id
    case _ => false
  }

  ghost predicate OneCreator(s: State) {
    && (forall c, id :: c in s.clients && Created(s.clients[c], id) ==> id in s.db.executions)
    && (forall c, d, id :: c in s.clients && d in s.clients && Created(s.clients[c], id) && Created(s.clients[d], id) ==> c == d)
  }

  ghost predicate Inv(s: State) {
    && Consistent(s.db)
    && s.db.instances <= s.admitted <= s.db.executions.Keys
    && (forall c :: c in s.clients ==> PhaseOk(s.db, s.admitted, s.clients[c]))
    && OneCreator(s)
  }

  lemma PhaseOkMonotone(before: Db, after: Db, admitted: set<Id>, admitted': set<Id>, phase: Phase)
    requires Extends(before, after) && admitted <= admitted' && PhaseOk(before, admitted, phase)
    ensures PhaseOk(after, admitted', phase)
  {
  }

  /** Every client only issues statements the tables can take. */
  lemma IssuedStatementIsLegal(s: State, e: Event)
    requires Inv(s)
    ensures Legal(s.db, StatementOf(s, e))
  {
    if e.Advance? && e.client in s.clients {
      assert PhaseOk(s.db, s.admitted, s.clients[e.client]);
    }
  }

  lemma RereadIsOk(db: Db, admitted: set<Id>, phase: Phase, w: World)
    requires phase.Reread? && PhaseOk(db, admitted, phase) && RowConsistent(db, phase.req.id)
    ensures PhaseOk(db, admitted, Resume(db, phase, w))
  {
  }

  /** Decisions may be taken on an older state; what they promise is checked on a newer one. */
  lemma NextIsOk(db: Db, after: Db, admitted: set<Id>, phase: Phase, w: World)
    requires !phase.Reread? && PhaseOk(after, admitted, phase)
    requires phase.Insert? ==> phase.req.id in after.executions
    requires phase.Launch? && Resume(db, phase, w).Confirm? ==> phase.req.id in after.instances
    requires PassesGate(db, phase, w) ==> phase.req.id in admitted
    ensures PhaseOk(after, admitted, Resume(db, phase, w))
  {
  }

  /** The phase a client continues in is supported by the state its own statement leaves. */
  lemma AdvancedPhaseOk(s: State, c: nat, w: World)
    requires Inv(s) && c in s.clients
    ensures PhaseOk(Step(s, Advance(c, w)).db, Step(s, Advance(c, w)).admitted, Resume(s.db, s.clients[c], w))
  {
    var s', phase := Step(s, Advance(c, w)), s.clients[c];
    assert PhaseOk(s.db, s.admitted, phase);
    StatementExtends(s.db, StatementOf(s, Advance(c, w)));
    if phase.Reread? {
      assert RowConsistent(s.db, phase.req.id);
      RereadIsOk(s.db, s.admitted, phase, w);
      PhaseOkMonotone(s.db, s'.db, s.admitted, s'.admitted, Resume(s.db, phase, w));
    } else {
      PhaseOkMonotone(s.db, s'.db, s.admitted, s'.admitted, phase);
      NextIsOk(s.db, s'.db, s'.admitted, phase, w);
    }
  }

  lemma PhasesStayOk(s: State, e: Event, c: nat)
    requires Inv(s) && c in Step(s, e).clients
    ensures PhaseOk(Step(s, e).db, Step(s, e).admitted, Step(s, e).clients[c])
  {
    var s' := Step(s, e);
    if c in s.clients {
      if e.Advance? && e.client == c {
        AdvancedPhaseOk(s, c, e.w);
      } else {
        StatementExtends(s.db, StatementOf(s, e));
        assert PhaseOk(s.db, s.admitted, s.clients[c]);
        PhaseOkMonotone(s.db, s'.db, s.admitted, s'.admitted, s.clients[c]);
      }
    }
  }

  /** Only an insert that found no row makes a client the creator, and nobody else can be one yet. */
  lemma CreatorIsFresh(db: Db, phase: Phase, w: World, id: Id)
    requires Created(Resume(db, phase, w), id)
    ensures Created(phase, id) || (phase.Insert? && phase.req.id == id && id !in db.executions)
  {
  }

  lemma CreatorOrigin(s: State, e: Event, c: nat, id: Id)
    requires c in Step(s, e).clients && Created(Step(s, e).clients[c], id)
    ensures c in s.clients
    ensures Created(s.clients[c], id) || (e.Advance? && e.client == c && id !in s.db.executions && id in Step(s, e).db.executions)
  {
    if e.Advance? && e.client == c {
      CreatorIsFresh(s.db, s.clients[c], e.w, id);
    }
  }

  lemma CreatorsStayUnique(s: State, e: Event)
    requires OneCreator(s)
    ensures OneCreator(Step(s, e))
  {
    var s' := Step(s, e);
    assert s.db.executions.Keys <= s'.db.executions.Keys by { StatementExtends(s.db, StatementOf(s, e)); }
    forall c, id | c in s'.clients && Created(s'.clients[c], id) ensures id in s'.db.executions {
      CreatorOrigin(s, e, c, id);
    }
    forall c, d, id | c in s'.clients && d in s'.clients && Created(s'.clients[c], id) && Created(s'.clients[d], id)
      ensures c == d
    {
      CreatorOrigin(s, e, c, id);
      CreatorOrigin(s, e, d, id);
    }
  }

  lemma StepKeepsInv(s: State, e: Event)
    requires Inv(s)
    ensures Inv(Step(s, e))
  {
    IssuedStatementIsLegal(s, e);
    StatementKeepsConsistent(s.db, StatementOf(s, e));
    CreatorsStayUnique(s, e);
    forall c | c in Step(s, e).clients ensures PhaseOk(Step(s, e).db, Step(s, e).admitted, Step(s, e).clients[c]) {
      PhasesStayOk(s, e, c);
    }
    if e.Advance? && e.client in s.clients {
      assert PhaseOk(s.db, s.admitted, s.clients[e.client]);
    }
  }

  lemma {:induction false} RunKeepsInv(s: State, es: seq<Event>)
    requires Inv(s)
    ensures Inv(Run(s, es))
    decreases |es|
  {
    if |es| > 0 {
      StepKeepsInv(s, es[0]);
      RunKeepsInv(Step(s, es[0]), es[1..]);
    }
  }

  lemma InitialInv()
    ensures Inv(INITIAL)
  {
  }

  lemma {:induction false} RunConcat(s: State, xs: seq<Event>, ys: seq<Event>)
    ensures Run(s, xs + ys) == Run(Run(s, xs), ys)
    decreases |xs|
  {
    if |xs| == 0 {
      assert xs + ys == ys;
    } else {
      assert (xs + ys)[0] == xs[0] && (xs + ys)[1..] == xs[1..] + ys;
      RunConcat(Step(s, xs[0]), xs[1..], ys);
    }
  }

  // ----- Idempotent submission -----

  /** Every acknowledged submission of one id found the same Saga and input, has its row and its Workflow instance,
    * and at most one acknowledgement of a top-level key claims to be the original: crashes, retries and concurrent
    * submits of the same key converge. */
  lemma SubmissionsConverge(es: seq<Event>, a: nat, b: nat)
    requires a in Run(INITIAL, es).clients && b in Run(INITIAL, es).clients
    requires Run(INITIAL, es).clients[a].Submitted? && Run(INITIAL, es).clients[b].Submitted?
    requires Run(INITIAL, es).clients[a].req.id == Run(INITIAL, es).clients[b].req.id
    ensures var s := Run(INITIAL, es);
      var first, second := s.clients[a], s.clients[b];
      && first.req.saga == second.req.saga && first.req.input == second.req.input
      && first.req.id in s.db.executions && first.req.id in s.db.instances && first.req.id in s.admitted
      && (a != b && first.req.id.Top? ==> first.replayed || second.replayed)
  {
    var s := Run(INITIAL, es);
    InitialInv();
    RunKeepsInv(INITIAL, es);
    assert PhaseOk(s.db, s.admitted, s.clients[a]) && PhaseOk(s.db, s.admitted, s.clients[b]);
    if !s.clients[a].replayed && !s.clients[b].replayed && s.clients[a].req.id.Top? {
      assert Created(s.clients[a], s.clients[a].req.id) && Created(s.clients[b], s.clients[a].req.id);
    }
  }

  /** No Workflow instance without an admitted row, and no dispatched marker without an instance, at any moment. */
  lemma DispatchIsAdmitted(es: seq<Event>, id: Id)
    ensures var s := Run(INITIAL, es);
      && (id in s.db.instances ==> id in s.admitted && id in s.db.executions)
      && (id in s.db.executions && s.db.executions[id].dispatched ==> id in s.db.instances)
  {
    InitialInv();
    RunKeepsInv(INITIAL, es);
    var s := Run(INITIAL, es);
    if id in s.db.executions {
      assert RowConsistent(s.db, id);
    }
  }

  /** In every reachable state the stored parent links form a forest: climbing from any row meets existing rows,
    * strictly less deep at each link, and ends at a top-level row. */
  lemma LineageIsForest(es: seq<Event>, id: Id, n: nat)
    requires id in Run(INITIAL, es).db.executions
    ensures var db := Run(INITIAL, es).db;
      && (Ancestor(db, id, n).Some? <==> n <= Depth(id))
      && (n <= Depth(id) ==>
            var above := Ancestor(db, id, n).value;
            above in db.executions && Depth(above) == Depth(id) - n && (n > 0 ==> above != id) && (n == Depth(id) <==> above.Top?))
  {
    InitialInv();
    RunKeepsInv(INITIAL, es);
    ParentsFormForest(Run(INITIAL, es).db, id, n);
  }

  // ----- The statements of a run -----

  /** The statements a run commits, in commit order. */
  function Trace(s: State, es: seq<Event>): seq<Statement>
    decreases |es|
  {
    if |es| == 0 then [] else [StatementOf(s, es[0])] + Trace(Step(s, es[0]), es[1..])
  }

  lemma {:induction false} RunExecutesTrace(s: State, es: seq<Event>)
    requires Inv(s)
    ensures Run(s, es).db == Exec(s.db, Trace(s, es))
    ensures LegalRun(s.db, Trace(s, es))
    decreases |es|
  {
    if |es| > 0 {
      IssuedStatementIsLegal(s, es[0]);
      StepKeepsInv(s, es[0]);
      RunExecutesTrace(Step(s, es[0]), es[1..]);
      assert Trace(s, es)[1..] == Trace(Step(s, es[0]), es[1..]);
    }
  }

  /** Once a row is terminal its outcome is final, whatever every client does afterwards. A Succeeded child in
    * particular answers every later await with the same result. */
  lemma OutcomesAreFinal(before: seq<Event>, after: seq<Event>, id: Id)
    requires id in Run(INITIAL, before).db.executions
    requires IsTerminal(Run(INITIAL, before).db.executions[id].status)
    ensures var s := Run(INITIAL, before);
      && id in Run(s, after).db.executions
      && SameOutcome(s.db.executions[id], Run(s, after).db.executions[id])
  {
    InitialInv();
    RunKeepsInv(INITIAL, before);
    var s := Run(INITIAL, before);
    RunExecutesTrace(s, after);
    RunExtends(s.db, Trace(s, after));
  }

  // ----- The admission bound -----

  predicate Governs(key: PolicyKey, row: Execution) {
    row.caller.org == key.org && row.saga == key.saga
  }

  /** Admitted rows of one (Organization, Saga) that are still active. */
  function AdmittedActive(s: State, key: PolicyKey): set<Id> {
    set id | id in s.db.executions && id in s.admitted && IsActive(s.db.executions[id].status) && Governs(key, s.db.executions[id])
  }

  /** The limit in force, and every limit already read by a client inside the gate, is between 1 and k. */
  ghost predicate Limited(s: State, key: PolicyKey, k: nat) {
    && key in s.db.policies && 0 < s.db.policies[key].maxConcurrent <= k
    && forall c :: c in s.clients && s.clients[c].GateCount? && key == PolicyKey(s.clients[c].req.id.caller.org, s.clients[c].req.saga) ==>
         0 < s.clients[c].limit <= k
  }

  predicate ConfiguresWithin(es: seq<Event>, key: PolicyKey, k: nat) {
    forall i :: 0 <= i < |es| && es[i].Configure? && es[i].key == key ==> 0 < es[i].policy.maxConcurrent <= k
  }

  /** An existing row is never activated again, and it keeps its Organization and Saga. */
  lemma ActiveWasActive(s: State, e: Event, key: PolicyKey, id: Id)
    requires Inv(s) && id in s.db.executions
    ensures var row, row' := s.db.executions[id], Step(s, e).db.executions[id];
      IsActive(row'.status) && Governs(key, row') ==> IsActive(row.status) && Governs(key, row)
  {
    IssuedStatementIsLegal(s, e);
    StatusChanges(s.db, StatementOf(s, e), id);
    StatementExtends(s.db, StatementOf(s, e));
    assert SameIdentity(s.db.executions[id], Step(s, e).db.executions[id]);
  }

  lemma AdmittedActiveGrowth(s: State, e: Event, key: PolicyKey, id: Id)
    requires Inv(s) && id in AdmittedActive(Step(s, e), key)
    ensures id in AdmittedActive(s, key) ||
            (e.Advance? && e.client in s.clients && PassesGate(s.db, s.clients[e.client], e.w) && id == s.clients[e.client].req.id)
  {
    if id in s.admitted {
      assert id in s.db.executions;
      ActiveWasActive(s, e, key, id);
    }
  }

  lemma GateStepBound(s: State, c: nat, w: World, key: PolicyKey, k: nat)
    requires Inv(s) && Limited(s, key, k) && |AdmittedActive(s, key)| <= k
    requires c in s.clients && PassesGate(s.db, s.clients[c], w)
    ensures |AdmittedActive(Step(s, Advance(c, w)), key)| <= k
  {
    var e, phase := Advance(c, w), s.clients[c];
    assert PhaseOk(s.db, s.admitted, phase);
    var req := phase.req;
    var row := s.db.executions[req.id];
    assert RowConsistent(s.db, req.id);
    forall id | id in AdmittedActive(Step(s, e), key) ensures id in AdmittedActive(s, key) + {req.id} {
      AdmittedActiveGrowth(s, e, key, id);
    }
    if !Governs(key, row) || !IsActive(row.status) {
      assert req.id !in AdmittedActive(Step(s, e), key);
      SubsetCount(AdmittedActive(Step(s, e), key), AdmittedActive(s, key));
    } else {
      var others := ActiveOthers(s.db, key.org, key.saga, req.id);
      assert key == PolicyKey(req.id.caller.org, req.saga);
      assert |others| < k;
      SubsetCount(AdmittedActive(Step(s, e), key), others + {req.id});
    }
  }

  lemma LimitStaysConfigured(s: State, e: Event, key: PolicyKey, k: nat)
    requires Limited(s, key, k)
    requires e.Configure? && e.key == key ==> 0 < e.policy.maxConcurrent <= k
    ensures Limited(Step(s, e), key, k)
  {
    var s' := Step(s, e);
    assert s'.db.policies == if e.Configure? then s.db.policies[e.key := e.policy] else s.db.policies;
    forall c | c in s'.clients && s'.clients[c].GateCount? && key == PolicyKey(s'.clients[c].req.id.caller.org, s'.clients[c].req.saga)
      ensures 0 < s'.clients[c].limit <= k
    {
      assert c in s.clients;
      if e.Advance? && e.client == c {
        assert s'.clients[c] == Resume(s.db, s.clients[c], e.w);
      }
    }
  }

  lemma StepKeepsLimit(s: State, e: Event, key: PolicyKey, k: nat)
    requires Inv(s) && Limited(s, key, k) && |AdmittedActive(s, key)| <= k
    requires e.Configure? && e.key == key ==> 0 < e.policy.maxConcurrent <= k
    ensures Limited(Step(s, e), key, k) && |AdmittedActive(Step(s, e), key)| <= k
  {
    LimitStaysConfigured(s, e, key, k);
    if e.Advance? && e.client in s.clients && PassesGate(s.db, s.clients[e.client], e.w) {
      GateStepBound(s, e.client, e.w, key, k);
    } else {
      forall id | id in AdmittedActive(Step(s, e), key) ensures id in AdmittedActive(s, key) {
        AdmittedActiveGrowth(s, e, key, id);
      }
      SubsetCount(AdmittedActive(Step(s, e), key), AdmittedActive(s, key));
    }
  }

  lemma {:induction false} RunKeepsLimit(s: State, es: seq<Event>, key: PolicyKey, k: nat)
    requires Inv(s) && Limited(s, key, k) && |AdmittedActive(s, key)| <= k
    requires ConfiguresWithin(es, key, k)
    ensures Limited(Run(s, es), key, k) && |AdmittedActive(Run(s, es), key)| <= k
    decreases |es|
  {
    if |es| > 0 {
      assert es[0] == es[0];
      StepKeepsLimit(s, es[0], key, k);
      StepKeepsInv(s, es[0]);
      assert ConfiguresWithin(es[1..], key, k) by {
        forall i | 0 <= i < |es[1..]| && es[1..][i].Configure? && es[1..][i].key == key
          ensures 0 < es[1..][i].policy.maxConcurrent <= k
        {
          assert es[1..][i] == es[i + 1];
        }
      }
      RunKeepsLimit(Step(s, es[0]), es[1..], key, k);
    }
  }

  /** While the configured limit stays between 1 and k, no interleaving of top-level submits, child dispatches, cancels
    * and crashes takes the admitted active Executions past k, from any reachable state that starts within it. */
  lemma AdmissionBound(setup: seq<Event>, es: seq<Event>, key: PolicyKey, k: nat)
    requires Limited(Run(INITIAL, setup), key, k)
    requires |AdmittedActive(Run(INITIAL, setup), key)| <= k
    requires ConfiguresWithin(es, key, k)
    ensures |AdmittedActive(Run(Run(INITIAL, setup), es), key)| <= k
  {
    InitialInv();
    RunKeepsInv(INITIAL, setup);
    RunKeepsLimit(Run(INITIAL, setup), es, key, k);
  }

}
