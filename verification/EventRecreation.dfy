/** What becomes of one delivery when its subscription or its source is deleted and created again: two runs, each with the
  * exact condition under which the promise of one Execution survives. */
module EventRecreation {

  import opened EventDelivery

  // ----- The runs -----

  function Advances(client: nat, n: nat): seq<Event> {
    if n == 0 then [] else [Advance(client, ADMIT)] + Advances(client, n - 1)
  }

  /** Register, emit, scan, deliver. */
  function FirstRun(sub: Sub, event: EventId, content: Content, row: SubRow): seq<Event> {
    [Administer(InsertSource(sub.source)), Administer(InsertSub(sub, row)), BeginEmit(0, sub.source, event, content)] +
    Advances(0, 3) + [FanOut(1, 0, sub.name)] + Advances(1, 4)
  }

  /** Then delete the subscription, create it again under the same name, and retry the event up to its submit. */
  function Recreation(sub: Sub, event: EventId, content: Content, first: SubRow, second: SubRow): seq<Event> {
    FirstRun(sub, event, content, first) +
    [Administer(DropSub(sub)), Administer(InsertSub(sub, second)), BeginRetry(2, sub, event)] + Advances(2, 5)
  }

  /** Or delete the source, create source and subscription again exactly as they were, emit under the same event id. */
  function SourceRecreation(sub: Sub, event: EventId, first: Content, second: Content, row: SubRow): seq<Event> {
    FirstRun(sub, event, first, row) +
    [Administer(DropSource(sub.source)), Administer(InsertSource(sub.source)), Administer(InsertSub(sub, row))] +
    [BeginEmit(2, sub.source, event, second)] + Advances(2, 2)
  }

  lemma RunThree(s: State, a: Event, b: Event, c: Event)
    ensures Run(s, [a, b, c]) == Step(Step(Step(s, a), b), c)
  {
    RunOne(s, a);
    RunOne(Step(s, a), b);
    RunOne(Step(Step(s, a), b), c);
    RunConcat(s, [a], [b]);
    RunConcat(s, [a] + [b], [c]);
    assert [a] + [b] + [c] == [a, b, c];
  }

  /** A client's next n undisturbed steps. */
  function After(s: State, client: nat, n: nat): State
    decreases n
  {
    if n == 0 then s else After(Step(s, Advance(client, ADMIT)), client, n - 1)
  }

  lemma AfterStep(s: State, client: nat, n: nat)
    ensures After(s, client, n + 1) == After(Step(s, Advance(client, ADMIT)), client, n)
    ensures After(s, client, 0) == s
  {
  }

  lemma {:induction false} AfterLast(s: State, client: nat, n: nat)
    ensures After(s, client, n + 1) == Step(After(s, client, n), Advance(client, ADMIT))
    decreases n
  {
    AfterStep(s, client, n);
    if n > 0 {
      AfterStep(s, client, n - 1);
      AfterLast(Step(s, Advance(client, ADMIT)), client, n - 1);
    } else {
      AfterStep(Step(s, Advance(client, ADMIT)), client, 0);
    }
  }

  lemma {:induction false} RunAdvances(s: State, client: nat, n: nat)
    ensures Run(s, Advances(client, n)) == After(s, client, n)
    decreases n
  {
    if n > 0 {
      var e := Advance(client, ADMIT);
      RunConcat(s, [e], Advances(client, n - 1));
      RunOne(s, e);
      RunAdvances(Step(s, e), client, n - 1);
      AfterStep(s, client, n - 1);
    }
  }

  // ----- The first delivery -----

  /** The tables once source and subscription are there. */
  function Registered(sub: Sub, row: SubRow): Db {
    Db(map[sub.source := true], map[], map[sub := row], map[], map[])
  }

  /** The emit is logged and its scan is over. */
  function ScanDone(sub: Sub, event: EventId, content: Content, row: SubRow): State {
    State(Registered(sub, row).(log := map[(sub.source, event) := content]), map[0 := Scanned(sub.source, event, content, {sub.name})])
  }

  lemma SetupPhase(sub: Sub, event: EventId, content: Content, row: SubRow)
    ensures Step(Step(Step(INITIAL, Administer(InsertSource(sub.source))), Administer(InsertSub(sub, row))), BeginEmit(0, sub.source, event, content))
      == State(Registered(sub, row), map[0 := EmitLoad(sub.source, event, content)])
  {
    var s1 := Step(INITIAL, Administer(InsertSource(sub.source)));
    assert s1 == State(Db(map[sub.source := true], map[], map[], map[], map[]), map[]);
    var s2 := Step(s1, Administer(InsertSub(sub, row)));
    assert s2 == State(Registered(sub, row), map[]);
  }

  lemma EmitLoads(s: State, c: nat, source: Source, event: EventId, content: Content)
    requires c in s.clients && s.clients[c] == EmitLoad(source, event, content) && s.db.sources == map[source := true]
    ensures Step(s, Advance(c, ADMIT)) == s.(clients := s.clients[c := EmitInsert(source, event, content)])
  {
  }

  lemma EmitInserts(s: State, c: nat, source: Source, event: EventId, content: Content)
    requires c in s.clients && s.clients[c] == EmitInsert(source, event, content) && s.db.log == map[]
    ensures Step(s, Advance(c, ADMIT)) ==
      State(s.db.(log := map[(source, event) := content]), s.clients[c := Emitted(source, event, content, false)])
  {
  }

  /** A new emit up to its answer. */
  lemma EmitPhase(s: State, c: nat, source: Source, event: EventId, content: Content)
    requires c in s.clients && s.clients[c] == EmitLoad(source, event, content) && s.db.sources == map[source := true] && s.db.log == map[]
    ensures After(s, c, 2) == State(s.db.(log := map[(source, event) := content]), s.clients[c := Emitted(source, event, content, false)])
  {
    var one := s.(clients := s.clients[c := EmitInsert(source, event, content)]);
    EmitLoads(s, c, source, event, content);
    EmitInserts(one, c, source, event, content);
    assert one.clients[c := Emitted(source, event, content, false)] == s.clients[c := Emitted(source, event, content, false)];
    AfterStep(s, c, 1);
    AfterStep(one, c, 0);
  }

  /** A single enabled, matching subscription is what the scan picks. */
  lemma OnePick(db: Db, sub: Sub, content: Content, row: SubRow)
    requires db.subs == map[sub := row] && row.enabled && MatchesTopicFilter(content.topic, row.filter)
    ensures ScanNames(db, sub.source, content) == {sub.name}
  {
    NotBeforeItself(sub.name);
    assert Ahead(db, sub.source, content, sub.name) == {};
    assert Eligible(db, sub.source, content, sub);
  }

  lemma ScanPhase(sub: Sub, event: EventId, content: Content, row: SubRow)
    requires row.enabled && MatchesTopicFilter(content.topic, row.filter)
    ensures After(State(Registered(sub, row), map[0 := EmitLoad(sub.source, event, content)]), 0, 3) == ScanDone(sub, event, content, row)
  {
    var s := State(Registered(sub, row), map[0 := EmitLoad(sub.source, event, content)]);
    EmitPhase(s, 0, sub.source, event, content);
    AfterLast(s, 0, 2);
    var emitted := After(s, 0, 2);
    OnePick(emitted.db, sub, content, row);
    assert emitted.clients == map[0 := Emitted(sub.source, event, content, false)];
    assert Step(emitted, Advance(0, ADMIT)).clients == ScanDone(sub, event, content, row).clients;
  }

  lemma SubmitPhase(s: State, c: nat, sub: Sub, event: EventId, content: Content, row: SubRow)
    requires c in s.clients && s.clients[c] == Submit(sub, event, content, row)
    ensures var exec, admission := ExecOf(sub, event, row), AdmissionOf(content, row);
      Step(s, Advance(c, ADMIT)) == State(Apply(s.db, Admit(exec, admission)),
        s.clients[c := if Conflicts(s.db, exec, admission) then Refused("IDEMPOTENCY_CONFLICT") else Receipt(sub, event, exec, exec in s.db.executions)])
  {
  }

  /** One undisturbed dispatch from its fence to its submit. */
  lemma DispatchPhase(s: State, c: nat, sub: Sub, event: EventId, content: Content, row: SubRow)
    requires c in s.clients && s.clients[c] == Fence(sub, event, content)
    requires sub in s.db.subs && s.db.subs[sub] == row && row.enabled
    ensures var exec, admission := ExecOf(sub, event, row), AdmissionOf(content, row);
      After(s, c, 3) == State(Apply(s.db, Admit(exec, admission)),
        s.clients[c := if Conflicts(s.db, exec, admission) then Refused("IDEMPOTENCY_CONFLICT") else Receipt(sub, event, exec, exec in s.db.executions)])
  {
    GatesPhase(s, c, sub, event, content, row);
    var two := s.(clients := s.clients[c := Submit(sub, event, content, row)]);
    AfterStep(s, c, 2);
    AfterStep(Step(s, Advance(c, ADMIT)), c, 1);
    AfterStep(two, c, 0);
    SubmitPhase(two, c, sub, event, content, row);
    assert two.clients[c := Receipt(sub, event, ExecOf(sub, event, row), ExecOf(sub, event, row) in s.db.executions)] ==
      s.clients[c := Receipt(sub, event, ExecOf(sub, event, row), ExecOf(sub, event, row) in s.db.executions)];
    assert two.clients[c := Refused("IDEMPOTENCY_CONFLICT")] == s.clients[c := Refused("IDEMPOTENCY_CONFLICT")];
  }

  lemma GatesPhase(s: State, c: nat, sub: Sub, event: EventId, content: Content, row: SubRow)
    requires c in s.clients && s.clients[c] == Fence(sub, event, content)
    requires sub in s.db.subs && s.db.subs[sub] == row && row.enabled
    ensures Step(Step(s, Advance(c, ADMIT)), Advance(c, ADMIT)) == s.(clients := s.clients[c := Submit(sub, event, content, row)])
  {
    var one := Step(s, Advance(c, ADMIT));
    assert one == s.(clients := s.clients[c := Gates(sub, event, content, row)]);
  }

  /** The state once the first delivery is through. */
  function FirstDelivery(sub: Sub, event: EventId, content: Content, row: SubRow): State {
    var exec := ExecOf(sub, event, row);
    State(
      Db(map[sub.source := true], map[(sub.source, event) := content], map[sub := row], map[(sub, event) := exec], map[exec := AdmissionOf(content, row)]),
      map[0 := Scanned(sub.source, event, content, {}), 1 := Delivered(sub, event, exec, false)])
  }

  lemma FanOutPhase(sub: Sub, event: EventId, content: Content, row: SubRow)
    ensures var s, s' := ScanDone(sub, event, content, row), Step(ScanDone(sub, event, content, row), FanOut(1, 0, sub.name));
      s'.db == s.db && s'.clients == map[0 := Scanned(sub.source, event, content, {}), 1 := Fence(sub, event, content)]
  {
    assert Sub(sub.source, sub.name) == sub && {sub.name} - {sub.name} == {};
  }

  lemma ReceiptPhase(s: State, sub: Sub, event: EventId, content: Content, row: SubRow)
    requires s.db == Apply(ScanDone(sub, event, content, row).db, Admit(ExecOf(sub, event, row), AdmissionOf(content, row)))
    requires s.clients == map[0 := Scanned(sub.source, event, content, {}), 1 := Receipt(sub, event, ExecOf(sub, event, row), false)]
    ensures Step(s, Advance(1, ADMIT)) == FirstDelivery(sub, event, content, row)
  {
    var exec := ExecOf(sub, event, row);
    var s' := Step(s, Advance(1, ADMIT));
    assert s'.db == Apply(s.db, InsertReceipt(sub, event, exec));
    assert s'.db.receipts == map[(sub, event) := exec];
    assert s'.clients == FirstDelivery(sub, event, content, row).clients;
  }

  lemma FirstPhase(sub: Sub, event: EventId, content: Content, row: SubRow)
    requires row.enabled && MatchesTopicFilter(content.topic, row.filter)
    ensures After(Step(ScanDone(sub, event, content, row), FanOut(1, 0, sub.name)), 1, 4) == FirstDelivery(sub, event, content, row)
  {
    var s := Step(ScanDone(sub, event, content, row), FanOut(1, 0, sub.name));
    FanOutPhase(sub, event, content, row);
    DispatchPhase(s, 1, sub, event, content, row);
    AfterLast(s, 1, 3);
    ReceiptPhase(After(s, 1, 3), sub, event, content, row);
  }

  lemma FirstRunDelivers(sub: Sub, event: EventId, content: Content, row: SubRow)
    requires row.enabled && MatchesTopicFilter(content.topic, row.filter)
    ensures Run(INITIAL, FirstRun(sub, event, content, row)) == FirstDelivery(sub, event, content, row)
  {
    var setup := [Administer(InsertSource(sub.source)), Administer(InsertSub(sub, row)), BeginEmit(0, sub.source, event, content)];
    var deliver := [FanOut(1, 0, sub.name)];
    RunConcat(INITIAL, setup + Advances(0, 3) + deliver, Advances(1, 4));
    RunConcat(INITIAL, setup + Advances(0, 3), deliver);
    RunConcat(INITIAL, setup, Advances(0, 3));
    RunThree(INITIAL, setup[0], setup[1], setup[2]);
    SetupPhase(sub, event, content, row);
    RunAdvances(Run(INITIAL, setup), 0, 3);
    ScanPhase(sub, event, content, row);
    RunOne(ScanDone(sub, event, content, row), deliver[0]);
    RunAdvances(Step(ScanDone(sub, event, content, row), deliver[0]), 1, 4);
    FirstPhase(sub, event, content, row);
  }

  // ----- The subscription again -----

  /** Where the second incarnation's retry starts: the receipt is gone, the Execution is not. */
  function Recreated(sub: Sub, event: EventId, content: Content, first: SubRow, second: SubRow): State {
    var s := FirstDelivery(sub, event, content, first);
    Step(Step(Step(s, Administer(DropSub(sub))), Administer(InsertSub(sub, second))), BeginRetry(2, sub, event))
  }

  lemma RecreatePhase(sub: Sub, event: EventId, content: Content, first: SubRow, second: SubRow)
    ensures var s := Recreated(sub, event, content, first, second);
      && 2 in s.clients && s.clients[2] == RetryRead(sub, event, second.filter)
      && s.db.subs == map[sub := second] && s.db.log == map[(sub.source, event) := content]
      && s.db.executions == map[ExecOf(sub, event, first) := AdmissionOf(content, first)]
  {
    var s1 := Step(FirstDelivery(sub, event, content, first), Administer(DropSub(sub)));
    assert s1.clients == FirstDelivery(sub, event, content, first).clients && s1.db.subs == map[];
    var s2 := Step(s1, Administer(InsertSub(sub, second)));
    assert s2.db.subs == map[sub := second] && s2.clients == s1.clients;
  }

  /** The retry reads the log and passes its bound. */
  lemma RetryPhase(s: State, sub: Sub, event: EventId, content: Content, row: SubRow)
    requires 2 in s.clients && s.clients[2] == RetryRead(sub, event, row.filter) && MatchesTopicFilter(content.topic, row.filter)
    requires s.db.subs == map[sub := row] && s.db.log == map[(sub.source, event) := content]
    ensures var two := s.(clients := s.clients[2 := Fence(sub, event, content)]);
      After(s, 2, 5) == After(two, 2, 3)
  {
    var one := s.(clients := s.clients[2 := RetryBound(sub, event, content)]);
    assert Step(s, Advance(2, ADMIT)) == one;
    assert OtherReceipts(one.db, sub, event) == {};
    RetryPasses(one, 2);
    assert Step(one, Advance(2, ADMIT)).clients == s.clients[2 := Fence(sub, event, content)];
    AfterStep(s, 2, 4);
    AfterStep(one, 2, 3);
  }

  lemma RunIsPhases(sub: Sub, event: EventId, content: Content, first: SubRow, second: SubRow)
    requires first.enabled && MatchesTopicFilter(content.topic, first.filter)
    ensures Run(INITIAL, Recreation(sub, event, content, first, second)) == After(Recreated(sub, event, content, first, second), 2, 5)
  {
    var again := [Administer(DropSub(sub)), Administer(InsertSub(sub, second)), BeginRetry(2, sub, event)];
    RunConcat(INITIAL, FirstRun(sub, event, content, first) + again, Advances(2, 5));
    RunConcat(INITIAL, FirstRun(sub, event, content, first), again);
    FirstRunDelivers(sub, event, content, first);
    RunThree(FirstDelivery(sub, event, content, first), again[0], again[1], again[2]);
    RunAdvances(Run(FirstDelivery(sub, event, content, first), again), 2, 5);
  }

  /** A subscription deleted and created again keeps its deterministic id, so the second dispatch of one event reuses
    * the first Execution exactly when run-as user and Saga are the same; it is refused as a conflict exactly when only
    * the Saga differs; and it starts a second Execution of the event exactly when the run-as user differs. */
  lemma RecreatedSubscription(sub: Sub, event: EventId, content: Content, first: SubRow, second: SubRow)
    requires first.enabled && second.enabled && MatchesTopicFilter(content.topic, first.filter) && MatchesTopicFilter(content.topic, second.filter)
    ensures var s := Run(INITIAL, Recreation(sub, event, content, first, second));
      var a, b := ExecOf(sub, event, first), ExecOf(sub, event, second);
      && 2 in s.clients
      && (s.clients[2] == Receipt(sub, event, a, true) <==> first.runAs == second.runAs && first.saga == second.saga)
      && (s.clients[2] == Refused("IDEMPOTENCY_CONFLICT") <==> first.runAs == second.runAs && first.saga != second.saga)
      && (s.clients[2] == Receipt(sub, event, b, false) <==> first.runAs != second.runAs)
      && s.db.executions.Keys == {a, b}
  {
    var s := Recreated(sub, event, content, first, second);
    RunIsPhases(sub, event, content, first, second);
    RecreatePhase(sub, event, content, first, second);
    RetryPhase(s, sub, event, content, second);
    DispatchPhase(s.(clients := s.clients[2 := Fence(sub, event, content)]), 2, sub, event, content, second);
    SecondAdmission(s.db, sub, event, content, first, second);
  }

  lemma SecondAdmission(db: Db, sub: Sub, event: EventId, content: Content, first: SubRow, second: SubRow)
    requires db.executions == map[ExecOf(sub, event, first) := AdmissionOf(content, first)]
    ensures var a, b := ExecOf(sub, event, first), ExecOf(sub, event, second);
      && (a == b <==> first.runAs == second.runAs)
      && (b in db.executions <==> a == b)
      && (Conflicts(db, b, AdmissionOf(content, second)) <==> a == b && first.saga != second.saga)
      && Apply(db, Admit(b, AdmissionOf(content, second))).executions.Keys == {a, b}
  {
  }

  // ----- The source again -----

  /** Once the source is back and the event id carries the second content; the first emit's fan-out is over, the second's has
    * not scanned yet. */
  function SourceAgain(sub: Sub, event: EventId, first: Content, second: Content, row: SubRow): State {
    var exec := ExecOf(sub, event, row);
    State(
      Db(map[sub.source := true], map[(sub.source, event) := second], map[sub := row], map[], map[exec := AdmissionOf(first, row)]),
      FirstDelivery(sub, event, first, row).clients[2 := Emitted(sub.source, event, second, false)])
  }

  lemma SourceComesBack(sub: Sub, event: EventId, first: Content, second: Content, row: SubRow)
    ensures var s := FirstDelivery(sub, event, first, row);
      var back := Step(Step(Step(s, Administer(DropSource(sub.source))), Administer(InsertSource(sub.source))), Administer(InsertSub(sub, row)));
      back == State(Db(map[sub.source := true], map[], map[sub := row], map[], s.db.executions), s.clients)
  {
    var s := FirstDelivery(sub, event, first, row);
    var s1 := Step(s, Administer(DropSource(sub.source)));
    assert s1 == State(Db(map[], map[], map[], map[], s.db.executions), s.clients);
    var s2 := Step(s1, Administer(InsertSource(sub.source)));
    assert s2 == State(Db(map[sub.source := true], map[], map[], map[], s.db.executions), s.clients);
  }

  lemma EmitsAgain(s: State, sub: Sub, event: EventId, first: Content, second: Content, row: SubRow)
    requires s == State(Db(map[sub.source := true], map[], map[sub := row], map[], FirstDelivery(sub, event, first, row).db.executions),
                        FirstDelivery(sub, event, first, row).clients)
    ensures After(Step(s, BeginEmit(2, sub.source, event, second)), 2, 2) == SourceAgain(sub, event, first, second, row)
  {
    var begun := Step(s, BeginEmit(2, sub.source, event, second));
    assert begun == s.(clients := s.clients[2 := EmitLoad(sub.source, event, second)]);
    EmitPhase(begun, 2, sub.source, event, second);
    assert begun.clients[2 := Emitted(sub.source, event, second, false)] == s.clients[2 := Emitted(sub.source, event, second, false)];
  }

  lemma SourceRun(sub: Sub, event: EventId, first: Content, second: Content, row: SubRow)
    requires row.enabled && MatchesTopicFilter(first.topic, row.filter)
    ensures Run(INITIAL, SourceRecreation(sub, event, first, second, row)) == SourceAgain(sub, event, first, second, row)
  {
    var again := [Administer(DropSource(sub.source)), Administer(InsertSource(sub.source)), Administer(InsertSub(sub, row))];
    var emit := [BeginEmit(2, sub.source, event, second)];
    var s := FirstDelivery(sub, event, first, row);
    RunConcat(INITIAL, FirstRun(sub, event, first, row) + again + emit, Advances(2, 2));
    RunConcat(INITIAL, FirstRun(sub, event, first, row) + again, emit);
    RunConcat(INITIAL, FirstRun(sub, event, first, row), again);
    FirstRunDelivers(sub, event, first, row);
    RunThree(s, again[0], again[1], again[2]);
    SourceComesBack(sub, event, first, second, row);
    RunOne(Run(s, again), emit[0]);
    RunAdvances(Step(Run(s, again), emit[0]), 2, 2);
    EmitsAgain(Run(s, again), sub, event, first, second, row);
  }

  /** With the same Saga and the same run-as user a deleted and re-created source still breaks the promise, exactly when
    * the event id is emitted again with another payload. */
  lemma RecreatedSource(sub: Sub, event: EventId, first: Content, second: Content, row: SubRow)
    requires row.enabled && MatchesTopicFilter(first.topic, row.filter) && MatchesTopicFilter(second.topic, row.filter)
    ensures var s := Run(INITIAL, SourceRecreation(sub, event, first, second, row));
      && s.db.subs == map[sub := row] && s.db.log == map[(sub.source, event) := second]
      && ((forall after :: Keeps(after, sub) ==> AtMostOnce(Run(s, after), sub, event)) <==> first.payload == second.payload)
  {
    var s := SourceAgain(sub, event, first, second, row);
    SourceRun(sub, event, first, second, row);
    StaysAtMostOnceExactly(SourceRecreation(sub, event, first, second, row), sub, event);
    SourceAgrees(sub, event, first, second, row);
  }

  lemma SourceAgrees(sub: Sub, event: EventId, first: Content, second: Content, row: SubRow)
    requires MatchesTopicFilter(first.topic, row.filter)
    ensures var s, shape := SourceAgain(sub, event, first, second, row), ShapeOf(row, second);
      ExecutionsAgree(s.db, sub, event, shape) && ClientsAgree(s, sub, event, shape) <==> first.payload == second.payload
  {
    var s, shape := SourceAgain(sub, event, first, second, row), ShapeOf(row, second);
    var exec := ExecOf(sub, event, row);
    assert exec in s.db.executions && exec.key == DeliveryKey(sub, event);
  }

}
