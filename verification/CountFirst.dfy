/** Why the gate counts only after the row is written: the same clients with the count moved in front of the insert, and
  * for every limit a run of them that passes it. */
module CountFirst {

  import opened Wrappers
  import opened Identity
  import opened Ledger
  import opened Submission
  import opened SubmissionSafety

  // ----- The variant -----

  /** The policy snapshot before the insert is the gate; after the insert nothing is counted. */
  function VariantResume(db: Db, phase: Phase, w: World): Phase {
    match phase
    case Snapshot(req) =>
      var policy := EffectivePolicy(db, req.id.caller.org, req.saga);
      if !policy.enabled then Refused(req, "SAGA_PAUSED")
      else if policy.maxConcurrent > 0 && AdmissionCount(db, req.id.caller.org, req.saga, req.id) >= policy.maxConcurrent
      then Refused(req, "ADMISSION_LIMITED")
      else Insert(req, Some(policy))
    case GatePolicy(req, created, seen) => Launch(req, created, seen)
    case _ => Resume(db, phase, w)
  }

  function VariantStep(s: State, e: Event): State {
    var moves := e.Advance? && e.client in s.clients;
    State(
      Apply(s.db, StatementOf(s, e)),
      if moves then s.clients[e.client := VariantResume(s.db, s.clients[e.client], e.w)] else ClientsAfter(s, e),
      if moves && s.clients[e.client].GatePolicy? then s.admitted + {s.clients[e.client].req.id} else s.admitted)
  }

  function VariantRun(s: State, es: seq<Event>): State
    decreases |es|
  {
    if |es| == 0 then s else VariantRun(VariantStep(s, es[0]), es[1..])
  }

  lemma {:induction false} VariantThen(s: State, es: seq<Event>, e: Event)
    ensures VariantRun(s, es + [e]) == VariantStep(VariantRun(s, es), e)
    decreases |es|
  {
    if |es| == 0 {
      assert es + [e] == [e] && [e][1..] == [];
    } else {
      assert (es + [e])[0] == es[0] && (es + [e])[1..] == es[1..] + [e];
      VariantThen(VariantStep(s, es[0]), es[1..], e);
    }
  }

  lemma {:induction false} VariantConcat(s: State, xs: seq<Event>, ys: seq<Event>)
    ensures VariantRun(s, xs + ys) == VariantRun(VariantRun(s, xs), ys)
    decreases |xs|
  {
    if |xs| == 0 {
      assert xs + ys == ys;
    } else {
      assert (xs + ys)[0] == xs[0] && (xs + ys)[1..] == xs[1..] + ys;
      VariantConcat(VariantStep(s, xs[0]), xs[1..], ys);
    }
  }

  lemma VariantOne(s: State, e: Event)
    ensures VariantRun(s, [e]) == VariantStep(s, e)
  {
    assert [e][1..] == [];
  }

  // ----- A run past the limit -----

  const KEY := PolicyKey("org", "saga")
  const CALM := World(0, Acknowledged, Ambiguous)

  /** Submissions of different users of one Organization. */
  function UserSubmit(i: nat): Request {
    Request(Top(Principal("org", seq(i, _ => 'u')), "key-000000000000"), "saga", "v1", "{}")
  }

  function Ids(n: nat): set<Id> {
    set i | 0 <= i < n :: UserSubmit(i).id
  }

  lemma {:induction false} IdsCount(n: nat)
    ensures |Ids(n)| == n
    decreases n
  {
    if n > 0 {
      IdsCount(n - 1);
      assert Ids(n) == Ids(n - 1) + {UserSubmit(n - 1).id};
      assert UserSubmit(n - 1).id !in Ids(n - 1) by {
        forall i | 0 <= i < n - 1 ensures UserSubmit(i).id != UserSubmit(n - 1).id {
          assert |UserSubmit(i).id.caller.user| == i && |UserSubmit(n - 1).id.caller.user| == n - 1;
        }
      }
    }
  }

  function SnapshotOf(n: nat): seq<Event> {
    [BeginSubmit(n, UserSubmit(n))] + [Advance(n, CALM)]
  }

  function PassOf(n: nat): seq<Event> {
    ([Advance(n, CALM)] + [Advance(n, CALM)]) + ([Advance(n, CALM)] + [Advance(n, CALM)])
  }

  /** Clients 0..n-1 each take their snapshot. */
  function Snapshots(n: nat): seq<Event> {
    if n == 0 then [] else Snapshots(n - 1) + SnapshotOf(n - 1)
  }

  /** Clients 0..n-1 each go on through the gate. */
  function Passes(n: nat): seq<Event> {
    if n == 0 then [] else Passes(n - 1) + PassOf(n - 1)
  }

  function Overrun(k: nat): seq<Event> {
    [Configure(KEY, Policy(true, k))] + Snapshots(k + 1) + Passes(k + 1)
  }

  /** n clients counted an empty table; nobody has inserted. */
  ghost predicate Counted(s: State, n: nat, k: nat) {
    && s.db == Db(map[], map[], map[KEY := Policy(true, k)], {}) && s.admitted == {}
    && (forall i :: i in s.clients <==> 0 <= i < n)
    && (forall i :: 0 <= i < n ==> s.clients[i] == Insert(UserSubmit(i), Some(Policy(true, k))))
  }

  function RowOf(i: nat, k: nat): Execution {
    NewExecution(UserSubmit(i).id, "saga", "v1", "{}", 0, Some(Policy(true, k)))
  }

  function PhaseOf(i: nat, n: nat, k: nat): Phase {
    if i < n then Launch(UserSubmit(i), true, RowOf(i, k)) else Insert(UserSubmit(i), Some(Policy(true, k)))
  }

  /** Of m clients the first n are through. */
  ghost predicate Through(s: State, n: nat, m: nat, k: nat) {
    && s.admitted == Ids(n) && s.db.executions.Keys == Ids(n)
    && (forall i :: 0 <= i < n ==> UserSubmit(i).id in s.db.executions && s.db.executions[UserSubmit(i).id] == RowOf(i, k))
    && (forall i :: 0 <= i < m ==> i in s.clients && s.clients[i] == PhaseOf(i, n, k))
  }

  lemma SnapshotStep(s: State, n: nat, k: nat) returns (t: State)
    requires Counted(s, n, k) && k > 0
    ensures t == VariantRun(s, SnapshotOf(n))
    ensures Counted(t, n + 1, k)
  {
    var begin := BeginSubmit(n, UserSubmit(n));
    var s1 := SnapshotBegins(s, n, k);
    SnapshotCounts(s1, n, k);
    t := CountedMore(s, s1, n, k);
    RunTwo(s, begin, Advance(n, CALM));
  }

  lemma CountedMore(s: State, s1: State, n: nat, k: nat) returns (t: State)
    requires Counted(s, n, k) && s1 == s.(clients := s.clients[n := Snapshot(UserSubmit(n))])
    ensures t == s1.(clients := s1.clients[n := Insert(UserSubmit(n), Some(Policy(true, k)))])
    ensures Counted(t, n + 1, k)
  {
    t := s1.(clients := s1.clients[n := Insert(UserSubmit(n), Some(Policy(true, k)))]);
  }

  lemma SnapshotBegins(s: State, n: nat, k: nat) returns (s1: State)
    requires Counted(s, n, k)
    ensures s1 == s.(clients := s.clients[n := Snapshot(UserSubmit(n))]) && s1 == VariantStep(s, BeginSubmit(n, UserSubmit(n)))
  {
    s1 := s.(clients := s.clients[n := Snapshot(UserSubmit(n))]);
  }

  lemma SnapshotCounts(s: State, n: nat, k: nat)
    requires k > 0 && s.db == Db(map[], map[], map[KEY := Policy(true, k)], {})
    requires n in s.clients && s.clients[n] == Snapshot(UserSubmit(n))
    ensures VariantStep(s, Advance(n, CALM)) == s.(clients := s.clients[n := Insert(UserSubmit(n), Some(Policy(true, k)))])
  {
    assert ActiveOthers(s.db, "org", "saga", UserSubmit(n).id) == {};
  }

  /** The state after every one of n snapshots. */
  lemma {:induction false} AllCounted(s: State, n: nat, k: nat) returns (t: State)
    requires Counted(s, 0, k) && k > 0
    ensures t == VariantRun(s, Snapshots(n))
    ensures Counted(t, n, k)
    decreases n
  {
    t := s;
    if n > 0 {
      var u := AllCounted(s, n - 1, k);
      t := SnapshotStep(u, n - 1, k);
      SnapshotsGrow(s, n, u, t);
    }
  }

  lemma SnapshotsGrow(s: State, n: nat, u: State, t: State)
    requires n > 0 && u == VariantRun(s, Snapshots(n - 1)) && t == VariantRun(u, SnapshotOf(n - 1))
    ensures t == VariantRun(s, Snapshots(n))
  {
    VariantConcat(s, Snapshots(n - 1), SnapshotOf(n - 1));
  }

  lemma NewId(n: nat)
    ensures UserSubmit(n).id !in Ids(n)
    ensures Ids(n + 1) == Ids(n) + {UserSubmit(n).id}
    ensures forall i :: 0 <= i < n ==> UserSubmit(i).id != UserSubmit(n).id
  {
    forall i | 0 <= i < n ensures UserSubmit(i).id != UserSubmit(n).id {
      assert |UserSubmit(i).id.caller.user| == i && |UserSubmit(n).id.caller.user| == n;
    }
  }

  /** What one advance of the variant does. */
  lemma Advanced(s: State, c: nat)
    requires c in s.clients
    ensures var s' := VariantStep(s, Advance(c, CALM));
      && s'.db == Apply(s.db, Issue(s.clients[c], CALM))
      && s'.clients == s.clients[c := VariantResume(s.db, s.clients[c], CALM)]
      && s'.admitted == if s.clients[c].GatePolicy? then s.admitted + {s.clients[c].req.id} else s.admitted
  {
  }

  lemma InsertStep(s: State, n: nat, k: nat)
    requires n in s.clients && s.clients[n] == Insert(UserSubmit(n), Some(Policy(true, k))) && UserSubmit(n).id !in s.db.executions
    ensures var s' := VariantStep(s, Advance(n, CALM));
      && s'.db.executions == s.db.executions[UserSubmit(n).id := RowOf(n, k)]
      && s'.clients == s.clients[n := Reread(UserSubmit(n), Some(Policy(true, k)), true)] && s'.admitted == s.admitted
  {
    Advanced(s, n);
  }

  lemma RereadStep(s: State, n: nat, k: nat)
    requires n in s.clients && s.clients[n] == Reread(UserSubmit(n), Some(Policy(true, k)), true)
    requires UserSubmit(n).id in s.db.executions && s.db.executions[UserSubmit(n).id] == RowOf(n, k)
    ensures var s' := VariantStep(s, Advance(n, CALM));
      && s'.db.executions == s.db.executions && s'.admitted == s.admitted
      && s'.clients == s.clients[n := Stamp(UserSubmit(n), Some(Policy(true, k)), true, RowOf(n, k))]
  {
    Advanced(s, n);
  }

  lemma StampStep(s: State, n: nat, k: nat)
    requires n in s.clients && s.clients[n] == Stamp(UserSubmit(n), Some(Policy(true, k)), true, RowOf(n, k))
    ensures var s' := VariantStep(s, Advance(n, CALM));
      && s'.db.executions == s.db.executions && s'.admitted == s.admitted
      && s'.clients == s.clients[n := GatePolicy(UserSubmit(n), true, RowOf(n, k))]
  {
    Advanced(s, n);
  }

  lemma GateStep(s: State, n: nat, k: nat)
    requires n in s.clients && s.clients[n] == GatePolicy(UserSubmit(n), true, RowOf(n, k))
    ensures var s' := VariantStep(s, Advance(n, CALM));
      && s'.db.executions == s.db.executions && s'.admitted == s.admitted + {UserSubmit(n).id}
      && s'.clients == s.clients[n := Launch(UserSubmit(n), true, RowOf(n, k))]
  {
    Advanced(s, n);
  }

  lemma RunTwo(s: State, a: Event, b: Event)
    ensures VariantRun(s, [a] + [b]) == VariantStep(VariantStep(s, a), b)
  {
    VariantOne(s, a);
    VariantThen(s, [a], b);
  }

  lemma InsertAndReread(s: State, n: nat, k: nat)
    requires n in s.clients && s.clients[n] == Insert(UserSubmit(n), Some(Policy(true, k))) && UserSubmit(n).id !in s.db.executions
    ensures var s' := VariantStep(VariantStep(s, Advance(n, CALM)), Advance(n, CALM));
      && s'.db.executions == s.db.executions[UserSubmit(n).id := RowOf(n, k)] && s'.admitted == s.admitted
      && s'.clients == s.clients[n := Stamp(UserSubmit(n), Some(Policy(true, k)), true, RowOf(n, k))]
  {
    InsertStep(s, n, k);
    RereadStep(VariantStep(s, Advance(n, CALM)), n, k);
  }

  lemma StampAndGate(s: State, n: nat, k: nat)
    requires n in s.clients && s.clients[n] == Stamp(UserSubmit(n), Some(Policy(true, k)), true, RowOf(n, k))
    ensures var s' := VariantStep(VariantStep(s, Advance(n, CALM)), Advance(n, CALM));
      && s'.db.executions == s.db.executions && s'.admitted == s.admitted + {UserSubmit(n).id}
      && s'.clients == s.clients[n := Launch(UserSubmit(n), true, RowOf(n, k))]
  {
    StampStep(s, n, k);
    GateStep(VariantStep(s, Advance(n, CALM)), n, k);
  }

  /** The four advances of one client after its count. */
  lemma Passed(s: State, n: nat, k: nat)
    requires n in s.clients && s.clients[n] == Insert(UserSubmit(n), Some(Policy(true, k))) && UserSubmit(n).id !in s.db.executions
    ensures var s' := VariantRun(s, PassOf(n));
      && s'.db.executions == s.db.executions[UserSubmit(n).id := RowOf(n, k)]
      && s'.admitted == s.admitted + {UserSubmit(n).id}
      && s'.clients == s.clients[n := Launch(UserSubmit(n), true, RowOf(n, k))]
  {
    var e := Advance(n, CALM);
    VariantConcat(s, [e] + [e], [e] + [e]);
    RunTwo(s, e, e);
    InsertAndReread(s, n, k);
    var s2 := VariantRun(s, [e] + [e]);
    RunTwo(s2, e, e);
    StampAndGate(s2, n, k);
  }

  lemma PassStep(s: State, n: nat, m: nat, k: nat) returns (t: State)
    requires Through(s, n, m, k) && n < m
    ensures t == VariantRun(s, PassOf(n))
    ensures Through(t, n + 1, m, k)
  {
    t := VariantRun(s, PassOf(n));
    assert s.clients[n] == PhaseOf(n, n, k);
    NewId(n);
    Passed(s, n, k);
    ThroughMore(s, t, n, m, k);
  }

  lemma ThroughMore(s: State, t: State, n: nat, m: nat, k: nat)
    requires Through(s, n, m, k) && n < m
    requires t.db.executions == s.db.executions[UserSubmit(n).id := RowOf(n, k)]
    requires t.admitted == s.admitted + {UserSubmit(n).id}
    requires t.clients == s.clients[n := Launch(UserSubmit(n), true, RowOf(n, k))]
    ensures Through(t, n + 1, m, k)
  {
    NewId(n);
  }

  /** The state after the first n clients went through. */
  lemma {:induction false} AllThrough(s: State, n: nat, m: nat, k: nat) returns (t: State)
    requires Through(s, 0, m, k) && n <= m
    ensures t == VariantRun(s, Passes(n))
    ensures Through(t, n, m, k)
    decreases n, 0
  {
    if n == 0 {
      t := s;
    } else {
      t := NextThrough(s, n - 1, m, k);
    }
  }

  lemma {:induction false} NextThrough(s: State, n: nat, m: nat, k: nat) returns (t: State)
    requires Through(s, 0, m, k) && n < m
    ensures t == VariantRun(s, Passes(n + 1))
    ensures Through(t, n + 1, m, k)
    decreases n, 1
  {
    var u := AllThrough(s, n, m, k);
    t := PassStep(u, n, m, k);
    PassesGrow(s, n + 1, u, t);
  }

  lemma PassesGrow(s: State, n: nat, u: State, t: State)
    requires n > 0 && u == VariantRun(s, Passes(n - 1)) && t == VariantRun(u, PassOf(n - 1))
    ensures t == VariantRun(s, Passes(n))
  {
    VariantConcat(s, Passes(n - 1), PassOf(n - 1));
  }

  /** For every limit k the variant has a run from the empty tables, with k configured once and for all, in which k+1
    * clients each counted fewer than k active rows, all pass, and k+1 admitted Executions are active at once. The real
    * gate never lets that happen. */
  lemma CountFirstOverAdmits(k: nat)
    requires k > 0
    ensures var s := VariantRun(INITIAL, Overrun(k));
      && KEY in s.db.policies && s.db.policies[KEY] == Policy(true, k)
      && (forall i :: 0 <= i <= k ==> i in s.clients && s.clients[i].Launch? && s.clients[i].req == UserSubmit(i))
      && |AdmittedActive(s, KEY)| == k + 1
  {
    var s0 := Configured(k);
    var s1 := AllCounted(s0, k + 1, k);
    StartThrough(s1, k + 1, k);
    var s2 := AllThrough(s1, k + 1, k + 1, k);
    OverrunParts(k, s0, s1, s2);
    PassesAdvance(k + 1);
    PoliciesStay(s1, Passes(k + 1));
    IdsCount(k + 1);
    AllActive(s2, k + 1, k);
  }

  lemma OverrunParts(k: nat, s0: State, s1: State, s2: State)
    requires s0 == VariantRun(INITIAL, [Configure(KEY, Policy(true, k))])
    requires s1 == VariantRun(s0, Snapshots(k + 1)) && s2 == VariantRun(s1, Passes(k + 1))
    ensures s2 == VariantRun(INITIAL, Overrun(k))
  {
    var configure := [Configure(KEY, Policy(true, k))];
    VariantConcat(INITIAL, configure + Snapshots(k + 1), Passes(k + 1));
    VariantConcat(INITIAL, configure, Snapshots(k + 1));
  }

  lemma Configured(k: nat) returns (s: State)
    ensures s == VariantRun(INITIAL, [Configure(KEY, Policy(true, k))])
    ensures Counted(s, 0, k)
  {
    s := VariantStep(INITIAL, Configure(KEY, Policy(true, k)));
    VariantOne(INITIAL, Configure(KEY, Policy(true, k)));
  }

  lemma StartThrough(s: State, m: nat, k: nat)
    requires Counted(s, m, k)
    ensures Through(s, 0, m, k) && s.db.policies == map[KEY := Policy(true, k)]
  {
  }

  lemma {:induction false} PassesAdvance(n: nat)
    ensures forall i :: 0 <= i < |Passes(n)| ==> Passes(n)[i].Advance?
    decreases n
  {
    if n > 0 {
      PassesAdvance(n - 1);
    }
  }

  lemma AllActive(s: State, n: nat, k: nat)
    requires Through(s, n, n, k)
    ensures AdmittedActive(s, KEY) == Ids(n)
  {
    forall id | id in Ids(n) ensures id in AdmittedActive(s, KEY) {
      var i :| 0 <= i < n && id == UserSubmit(i).id;
      assert s.db.executions[id] == RowOf(i, k);
    }
  }

  lemma {:induction false} PoliciesStay(s: State, es: seq<Event>)
    requires forall i :: 0 <= i < |es| ==> es[i].Advance?
    ensures VariantRun(s, es).db.policies == s.db.policies
    decreases |es|
  {
    if |es| > 0 {
      assert es[0].Advance?;
      PoliciesStay(VariantStep(s, es[0]), es[1..]);
    }
  }

}
