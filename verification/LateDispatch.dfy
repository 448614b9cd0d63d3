/** When a cancelled Execution can still be dispatched: exactly when a submitter is already past its read of the row and
  * nothing that is left of its way can stop it. */
module LateDispatch {

  import opened Wrappers
  import opened Sets
  import opened Identity
  import opened Ledger
  import opened Submission
  import opened SubmissionSafety
  import opened Cancellation

  /** A Cancelling row whose canceller is gone: nothing in the system moves it any more. */
  ghost predicate Stuck(s: State, x: Id) {
    HasStatus(s.db, x, {Cancelling}) && forall c :: c in s.clients ==> !Holds(s.clients[c], x)
  }

  /** The rows that will count against a submitter's limit for ever. */
  ghost function StuckOthers(s: State, req: Request): set<Id> {
    set x | x in ActiveOthers(s.db, req.id.caller.org, req.saga, req.id) && Stuck(s, x)
  }

  /** A top-level submit of another revision is refused by the recovery window at any time. */
  predicate RevisionOk(req: Request, seen: Execution) {
    req.id.Top? ==> seen.revision == req.revision
  }

  /** Client `c` is past its read of row `id`, which it saw undispatched and not cancelled, and can still get through. */
  ghost predicate MayStart(s: State, c: nat, id: Id) {
    && c in s.clients
    && match s.clients[c]
       case Stamp(req, _, _, seen) =>
         req.id == id && RevisionOk(req, seen) && seen.status !in {Cancelling, Cancelled} && !seen.dispatched
       case GatePolicy(req, _, seen) => req.id == id && RevisionOk(req, seen)
       case GateCount(req, _, seen, limit) => req.id == id && RevisionOk(req, seen) && |StuckOthers(s, req)| < limit
       case Launch(req, _, seen) => req.id == id && RevisionOk(req, seen)
       case _ => false
  }

  // ----- Nobody past the read: never -----

  lemma StuckStays(s: State, e: Event, x: Id)
    requires Stuck(s, x)
    ensures Stuck(Step(s, e), x)
  {
    var s' := Step(s, e);
    CancellingStays(s, e, x);
    forall c | c in s'.clients ensures !Holds(s'.clients[c], x) {
      if Holds(s'.clients[c], x) {
        HolderOrigin(s, e, c, x);
        assert false;
      }
    }
  }

  lemma StuckOthersGrow(s: State, e: Event, req: Request)
    ensures StuckOthers(s, req) <= StuckOthers(Step(s, e), req)
  {
    StatementExtends(s.db, StatementOf(s, e));
    forall x | x in StuckOthers(s, req) ensures x in StuckOthers(Step(s, e), req) {
      StuckStays(s, e, x);
      assert SameIdentity(s.db.executions[x], Step(s, e).db.executions[x]);
    }
  }

  lemma CancelledStep(s: State, e: Event, id: Id)
    requires HasStatus(s.db, id, {Cancelled})
    ensures HasStatus(Step(s, e).db, id, {Cancelled})
  {
    StatementExtends(s.db, StatementOf(s, e));
  }

  lemma NoneStarts(s: State, e: Event, id: Id)
    requires id !in s.db.instances && forall c :: !MayStart(s, c, id)
    ensures id !in Step(s, e).db.instances
  {
    if e.Advance? && e.client in s.clients {
      assert !MayStart(s, e.client, id);
    }
  }

  /** An advance never turns a client that cannot start the row into one that can. */
  lemma AdvanceCannotStart(s: State, c: nat, w: World, id: Id)
    requires HasStatus(s.db, id, {Cancelled}) && c in s.clients && !MayStart(s, c, id)
    ensures !MayStart(Step(s, Advance(c, w)), c, id)
  {
    var phase := s.clients[c];
    if phase.GateCount? {
      assert StuckOthers(s, phase.req) <= ActiveOthers(s.db, phase.req.id.caller.org, phase.req.saga, phase.req.id);
      SubsetCount(StuckOthers(s, phase.req), ActiveOthers(s.db, phase.req.id.caller.org, phase.req.saga, phase.req.id));
    }
  }

  lemma OthersCannotStart(s: State, e: Event, c: nat, id: Id)
    requires c in s.clients && !MayStart(s, c, id) && c in Step(s, e).clients && Step(s, e).clients[c] == s.clients[c]
    ensures !MayStart(Step(s, e), c, id)
  {
    var phase := s.clients[c];
    if phase.GateCount? {
      StuckOthersGrow(s, e, phase.req);
      SubsetCount(StuckOthers(s, phase.req), StuckOthers(Step(s, e), phase.req));
    }
  }

  lemma StepCannotStart(s: State, e: Event, id: Id)
    requires HasStatus(s.db, id, {Cancelled}) && forall c :: !MayStart(s, c, id)
    ensures forall c :: !MayStart(Step(s, e), c, id)
  {
    forall c ensures !MayStart(Step(s, e), c, id) {
      if c in s.clients && c in Step(s, e).clients {
        if e.Advance? && e.client == c {
          AdvanceCannotStart(s, c, e.w, id);
        } else {
          OthersCannotStart(s, e, c, id);
        }
      }
    }
  }

  lemma {:induction false} NeverStarts(s: State, es: seq<Event>, id: Id)
    requires HasStatus(s.db, id, {Cancelled}) && id !in s.db.instances && forall c :: !MayStart(s, c, id)
    ensures id !in Run(s, es).db.instances
    decreases |es|
  {
    if |es| > 0 {
      NoneStarts(s, es[0], id);
      CancelledStep(s, es[0], id);
      StepCannotStart(s, es[0], id);
      NeverStarts(Step(s, es[0]), es[1..], id);
    }
  }

  // ----- Releasing a row -----

  const STOP := World(0, Acknowledged, Stopped)

  /** Between two states only row `x` and its cancellers moved; client `c` and every other held row stayed. */
  ghost predicate OnlyMoves(s: State, s': State, x: Id, c: nat) {
    && s'.db.executions.Keys == s.db.executions.Keys
    && (forall y :: y in s.db.executions && y != x ==> s'.db.executions[y] == s.db.executions[y])
    && (x in s.db.executions ==> SameIdentity(s.db.executions[x], s'.db.executions[x]))
    && c in s.clients && c in s'.clients && s'.clients[c] == s.clients[c]
    && (forall d, y :: y != x && d in s.clients && Holds(s.clients[d], y) ==> d in s'.clients && Holds(s'.clients[d], y))
  }

  predicate Cancels(phase: Phase, x: Id) {
    match phase
    case CancelRead(y) => y == x
    case CancelMark(y, _, _) => y == x
    case _ => Holds(phase, x)
  }

  lemma CancellerMoves(s: State, h: nat, x: Id, c: nat)
    requires h in s.clients && Cancels(s.clients[h], x) && c in s.clients && c != h
    ensures OnlyMoves(s, Step(s, Advance(h, STOP)), x, c)
  {
    var s' := Step(s, Advance(h, STOP));
    assert StatementOf(s, Advance(h, STOP)) in {Read, MarkCancelling(x), ConfirmCancel(x, 0)} || StatementOf(s, Advance(h, STOP)).RollBack?;
    StatementExtends(s.db, StatementOf(s, Advance(h, STOP)));
  }

  lemma OnlyMovesTransitive(a: State, b: State, c: State, x: Id, k: nat)
    requires OnlyMoves(a, b, x, k) && OnlyMoves(b, c, x, k)
    ensures OnlyMoves(a, c, x, k)
  {
  }

  lemma RunOne(s: State, e: Event)
    ensures Run(s, [e]) == Step(s, e)
  {
    assert [e][1..] == [];
  }

  /** Appending one event to a run. */
  lemma RunThen(s: State, es: seq<Event>, e: Event)
    ensures Run(s, es + [e]) == Step(Run(s, es), e)
  {
    RunConcat(s, es, [e]);
    RunOne(Run(s, es), e);
  }

  /** A canceller at its confirmation settles the row; one whose stop is observed gets there. */
  lemma Confirmed(s: State, h: nat, x: Id, c: nat) returns (es: seq<Event>)
    requires h in s.clients && c in s.clients && c != h && HasStatus(s.db, x, {Cancelling})
    requires s.clients[h] == CancelConfirm(x) || (s.clients[h].CancelStop? && s.clients[h].id == x)
    ensures OnlyMoves(s, Run(s, es), x, c) && HasStatus(Run(s, es).db, x, {Cancelled})
  {
    var s1 := if s.clients[h].CancelStop? then Step(s, Advance(h, STOP)) else s;
    es := if s.clients[h].CancelStop? then [Advance(h, STOP)] else [];
    if s.clients[h].CancelStop? {
      RunOne(s, Advance(h, STOP));
      CancellerMoves(s, h, x, c);
    }
    assert s1.clients[h] == CancelConfirm(x) && HasStatus(s1.db, x, {Cancelling}) && c in s1.clients;
    CancellerMoves(s1, h, x, c);
    OnlyMovesTransitive(s, s1, Step(s1, Advance(h, STOP)), x, c);
    RunThen(s, es, Advance(h, STOP));
    es := es + [Advance(h, STOP)];
  }

  /** A new canceller settles an active row nobody has marked. */
  lemma CancelledAfresh(s: State, x: Id, c: nat) returns (es: seq<Event>)
    requires c in s.clients && HasStatus(s.db, x, {Pending, Running})
    ensures OnlyMoves(s, Run(s, es), x, c) && HasStatus(Run(s, es).db, x, {Cancelled})
  {
    var d := Above(s.clients.Keys);
    var s0 := Step(s, BeginCancel(d, x));
    assert s0.clients == s.clients[d := CancelRead(x)] && s0.db == s.db;
    assert OnlyMoves(s, s0, x, c);
    var s1 := Step(s0, Advance(d, STOP));
    CancellerMoves(s0, d, x, c);
    var s2 := Step(s1, Advance(d, STOP));
    assert s1.clients[d].CancelMark? && s1.clients[d].id == x && s1.db == s.db;
    CancellerMoves(s1, d, x, c);
    assert s2.clients[d].CancelStop? && s2.clients[d].id == x && HasStatus(s2.db, x, {Cancelling});
    OnlyMovesTransitive(s, s0, s1, x, c);
    OnlyMovesTransitive(s, s1, s2, x, c);
    var tail := Confirmed(s2, d, x, c);
    OnlyMovesTransitive(s, s2, Run(s2, tail), x, c);
    var head := [BeginCancel(d, x), Advance(d, STOP), Advance(d, STOP)];
    assert Run(s, head) == s2 by {
      RunOne(s, head[0]);
      RunThen(s, [head[0]], head[1]);
      RunThen(s, [head[0]] + [head[1]], head[2]);
      assert head == [head[0]] + [head[1]] + [head[2]];
    }
    RunConcat(s, head, tail);
    es := head + tail;
  }

  /** A canceller about to roll back does so, and a new one settles the row. */
  lemma RolledBackThenCancelled(s: State, h: nat, x: Id, c: nat) returns (es: seq<Event>)
    requires Inv(s) && c in s.clients && c != h && HasStatus(s.db, x, {Cancelling})
    requires h in s.clients && s.clients[h].CancelRollback? && s.clients[h].id == x
    ensures OnlyMoves(s, Run(s, es), x, c) && HasStatus(Run(s, es).db, x, {Cancelled})
  {
    var s1 := Step(s, Advance(h, STOP));
    assert PhaseOk(s.db, s.admitted, s.clients[h]);
    CancellerMoves(s, h, x, c);
    assert HasStatus(s1.db, x, {Pending, Running});
    var tail := CancelledAfresh(s1, x, c);
    OnlyMovesTransitive(s, s1, Run(s1, tail), x, c);
    RunOne(s, Advance(h, STOP));
    RunConcat(s, [Advance(h, STOP)], tail);
    es := [Advance(h, STOP)] + tail;
  }

  /** Every active row that is not stuck can be settled without touching anything else. */
  lemma Released(s: State, x: Id, c: nat) returns (es: seq<Event>)
    requires Inv(s) && OneHolder(s) && c in s.clients && s.clients[c].GateCount?
    requires HasStatus(s.db, x, {Pending, Running, Cancelling}) && !Stuck(s, x)
    ensures OnlyMoves(s, Run(s, es), x, c) && HasStatus(Run(s, es).db, x, {Cancelled})
  {
    if HasStatus(s.db, x, {Pending, Running}) {
      es := CancelledAfresh(s, x, c);
    } else {
      var h :| h in s.clients && Holds(s.clients[h], x);
      if s.clients[h].CancelRollback? {
        es := RolledBackThenCancelled(s, h, x, c);
      } else {
        es := Confirmed(s, h, x, c);
      }
    }
  }

  ghost function Releasable(s: State, req: Request): set<Id> {
    ActiveOthers(s.db, req.id.caller.org, req.saga, req.id) - StuckOthers(s, req)
  }

  /** What settling one row does to the counts of a waiting submitter. */
  lemma ReleaseShrinks(s: State, s': State, x: Id, c: nat, req: Request)
    requires OnlyMoves(s, s', x, c) && x in Releasable(s, req) && HasStatus(s'.db, x, {Cancelled})
    requires forall y :: Stuck(s, y) ==> Stuck(s', y)
    ensures |Releasable(s', req)| < |Releasable(s, req)|
    ensures StuckOthers(s', req) <= StuckOthers(s, req)
  {
    FewerReleasable(s, s', x, c, req);
    SubsetCount(Releasable(s', req), Releasable(s, req) - {x});
  }

  lemma FewerReleasable(s: State, s': State, x: Id, c: nat, req: Request)
    requires OnlyMoves(s, s', x, c) && x in Releasable(s, req) && HasStatus(s'.db, x, {Cancelled})
    requires forall y :: Stuck(s, y) ==> Stuck(s', y)
    ensures Releasable(s', req) <= Releasable(s, req) - {x}
    ensures StuckOthers(s', req) <= StuckOthers(s, req)
  {
    forall y | y in ActiveOthers(s'.db, req.id.caller.org, req.saga, req.id)
      ensures y != x && y in ActiveOthers(s.db, req.id.caller.org, req.saga, req.id)
      ensures Stuck(s', y) ==> Stuck(s, y)
    {
      assert y in s.db.executions && s'.db.executions[y] == s.db.executions[y];
      if Stuck(s', y) {
        forall d | d in s.clients ensures !Holds(s.clients[d], y) {
        }
      }
    }
  }

  lemma {:induction false} StuckForever(s: State, es: seq<Event>, x: Id)
    requires Stuck(s, x)
    ensures Stuck(Run(s, es), x)
    decreases |es|
  {
    if |es| > 0 {
      StuckStays(s, es[0], x);
      StuckForever(Step(s, es[0]), es[1..], x);
    }
  }

  lemma AllStuckForever(s: State, es: seq<Event>)
    ensures forall y :: Stuck(s, y) ==> Stuck(Run(s, es), y)
  {
    forall y | Stuck(s, y) ensures Stuck(Run(s, es), y) {
      StuckForever(s, es, y);
    }
  }

  /** One more row settled. */
  lemma ReleaseOne(s: State, c: nat) returns (es: seq<Event>)
    requires Inv(s) && OneHolder(s) && c in s.clients && s.clients[c].GateCount? && Releasable(s, s.clients[c].req) != {}
    ensures var s', req := Run(s, es), s.clients[c].req;
      && Inv(s') && OneHolder(s') && c in s'.clients && s'.clients[c] == s.clients[c]
      && |Releasable(s', req)| < |Releasable(s, req)| && StuckOthers(s', req) <= StuckOthers(s, req)
  {
    var req := s.clients[c].req;
    var x :| x in Releasable(s, req);
    es := Released(s, x, c);
    RunKeepsInv(s, es);
    RunKeepsOneHolder(s, es);
    AllStuckForever(s, es);
    ReleaseShrinks(s, Run(s, es), x, c, req);
  }

  /** Everything that can be settled is, until only stuck rows count against the submitter. */
  lemma {:induction false} AllReleased(s: State, c: nat) returns (es: seq<Event>)
    requires Inv(s) && OneHolder(s) && c in s.clients && s.clients[c].GateCount?
    ensures var s', req := Run(s, es), s.clients[c].req;
      && Inv(s') && c in s'.clients && s'.clients[c] == s.clients[c]
      && Releasable(s', req) == {} && StuckOthers(s', req) <= StuckOthers(s, req)
    decreases |Releasable(s, s.clients[c].req)|
  {
    if Releasable(s, s.clients[c].req) == {} {
      es := [];
    } else {
      var head := ReleaseOne(s, c);
      var tail := AllReleased(Run(s, head), c);
      RunConcat(s, head, tail);
      es := head + tail;
    }
  }

  // ----- Somebody past the read: it can happen -----

  lemma FromLaunch(s: State, c: nat, id: Id) returns (es: seq<Event>)
    requires c in s.clients && s.clients[c].Launch? && MayStart(s, c, id)
    ensures id in Run(s, es).db.instances
  {
    var e := Advance(c, World(s.clients[c].seen.createdAt, Acknowledged, Ambiguous));
    es := [e];
    RunOne(s, e);
  }

  lemma FromGate(s: State, c: nat, id: Id) returns (es: seq<Event>)
    requires c in s.clients && s.clients[c].GatePolicy? && MayStart(s, c, id)
    ensures id in Run(s, es).db.instances
  {
    var req := s.clients[c].req;
    var open := Configure(PolicyKey(req.id.caller.org, req.saga), Policy(true, 0));
    var s1 := Step(s, open);
    var s2 := Step(s1, Advance(c, STOP));
    assert EffectivePolicy(s1.db, req.id.caller.org, req.saga) == Policy(true, 0);
    assert s2.clients[c] == Launch(req, s.clients[c].created, s.clients[c].seen);
    var tail := FromLaunch(s2, c, id);
    RunOne(s, open);
    RunThen(s, [open], Advance(c, STOP));
    RunConcat(s, [open] + [Advance(c, STOP)], tail);
    es := [open] + [Advance(c, STOP)] + tail;
  }

  lemma FromStamp(s: State, c: nat, id: Id) returns (es: seq<Event>)
    requires c in s.clients && s.clients[c].Stamp? && MayStart(s, c, id)
    ensures id in Run(s, es).db.instances
  {
    var s1 := Step(s, Advance(c, STOP));
    assert s1.clients[c] == GatePolicy(s.clients[c].req, s.clients[c].created, s.clients[c].seen);
    var tail := FromGate(s1, c, id);
    RunOne(s, Advance(c, STOP));
    RunConcat(s, [Advance(c, STOP)], tail);
    es := [Advance(c, STOP)] + tail;
  }

  lemma OnlyStuckCount(s: State, req: Request)
    requires Releasable(s, req) == {}
    ensures AdmissionCount(s.db, req.id.caller.org, req.saga, req.id) == |StuckOthers(s, req)|
  {
    var others := ActiveOthers(s.db, req.id.caller.org, req.saga, req.id);
    assert forall x :: x in others && x !in StuckOthers(s, req) ==> x in Releasable(s, req);
    assert others == StuckOthers(s, req);
  }

  lemma FromCount(s: State, c: nat, id: Id) returns (es: seq<Event>)
    requires Inv(s) && OneHolder(s) && c in s.clients && s.clients[c].GateCount? && MayStart(s, c, id)
    ensures id in Run(s, es).db.instances
  {
    var phase := s.clients[c];
    var head := AllReleased(s, c);
    var s1 := Run(s, head);
    OnlyStuckCount(s1, phase.req);
    SubsetCount(StuckOthers(s1, phase.req), StuckOthers(s, phase.req));
    var s2 := Step(s1, Advance(c, STOP));
    assert s2.clients[c] == Launch(phase.req, phase.created, phase.seen);
    var tail := FromLaunch(s2, c, id);
    RunThen(s, head, Advance(c, STOP));
    RunConcat(s, head + [Advance(c, STOP)], tail);
    es := head + [Advance(c, STOP)] + tail;
  }

  /** A cancelled Execution without an instance is dispatched in some continuation exactly when some client is already past
    * its read of the row: about to stamp a row it saw undispatched and uncancelled, at the gate, or about to launch; of the
    * same revision if it is a top-level submit; and, if it is about to count under a limit it has read, with fewer rows
    * stuck in Cancelling against it than that limit. */
  lemma CancelledDispatchesExactly(es: seq<Event>, id: Id)
    requires HasStatus(Run(INITIAL, es).db, id, {Cancelled}) && id !in Run(INITIAL, es).db.instances
    ensures (exists after :: id in Run(Run(INITIAL, es), after).db.instances) <==> exists c :: MayStart(Run(INITIAL, es), c, id)
  {
    var s := Run(INITIAL, es);
    InitialInv();
    RunKeepsInv(INITIAL, es);
    RunKeepsOneHolder(INITIAL, es);
    if c :| MayStart(s, c, id) {
      var after;
      match s.clients[c]
      case Stamp(_, _, _, _) => after := FromStamp(s, c, id);
      case GatePolicy(_, _, _) => after := FromGate(s, c, id);
      case GateCount(_, _, _, _) => after := FromCount(s, c, id);
      case Launch(_, _, _) => after := FromLaunch(s, c, id);
      assert id in Run(s, after).db.instances;
    } else {
      forall after ensures id !in Run(s, after).db.instances {
        NeverStarts(s, after, id);
      }
    }
  }

}
