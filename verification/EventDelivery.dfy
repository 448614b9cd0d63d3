/** Event sources, their append-only log, and the dispatch of one event to one subscription. Emitters, dispatchers and
  * administrators interleave freely; every SQL statement is one atomic step. */
module EventDelivery {

  import opened Wrappers
  import opened Identity
  import opened Sets

  // ----- Identities and rows -----

  /** Source and subscription ids are digests of their tuples; the tuple stands for the digest. */
  datatype Source = Source(org: string, name: string)

  datatype Sub = Sub(source: Source, name: string)

  type EventId = nat

  /** Only the delivery path can form a delivery key: caller keys starting with `evt-` are refused. */
  datatype Key = CallerKey(key: string) | DeliveryKey(sub: Sub, event: EventId)

  datatype Exec = Exec(caller: Principal, key: Key)

  datatype Content = Content(topic: string, payload: string, execution: Option<string>)

  /** A Saga's parse gate is a function of the Saga and the payload; the pair stands for its result. */
  datatype Input = Parsed(saga: string, payload: string) | Other(json: string)

  datatype Admission = Admission(saga: string, input: Input)

  datatype SubRow = SubRow(saga: string, filter: string, enabled: bool, runAs: string)

  datatype Db = Db(
    sources: map<Source, bool>,
    log: map<(Source, EventId), Content>,
    subs: map<Sub, SubRow>,
    receipts: map<(Sub, EventId), Exec>,
    executions: map<Exec, Admission>)

  // ----- Topic filters -----

  /** Exact equality, or a strict namespace prefix for a filter that ends in `.*`. */
  predicate MatchesTopicFilter(topic: string, filter: string) {
    if |filter| >= 2 && filter[|filter| - 2..] == ".*"
    then |topic| > |filter| - 1 && topic[..|filter| - 1] == filter[..|filter| - 1]
    else topic == filter
  }

  /** A namespace filter matches exactly the topics that extend the namespace by a dot and at least one character. */
  lemma NamespaceFilter(topic: string, namespace: string)
    ensures MatchesTopicFilter(topic, namespace + ".*") <==> exists rest :: |rest| > 0 && topic == namespace + "." + rest
  {
    var filter := namespace + ".*";
    assert filter[|filter| - 2..] == ".*";
    assert filter[..|filter| - 1] == namespace + ".";
    if MatchesTopicFilter(topic, filter) {
      assert topic == namespace + "." + topic[|filter| - 1..];
    }
    if rest :| |rest| > 0 && topic == namespace + "." + rest {
      assert topic[..|filter| - 1] == namespace + ".";
    }
  }

  // ----- Statements -----

  datatype Statement =
    | Read
    | InsertSource(source: Source)
    | EnableSource(source: Source, enabled: bool)
    | DropSource(source: Source)
    | InsertEvent(source: Source, event: EventId, content: Content)
    | InsertSub(sub: Sub, row: SubRow)
    | EnableSub(sub: Sub, enabled: bool)
    | DropSub(sub: Sub)
    | Admit(exec: Exec, admission: Admission)
    | InsertReceipt(sub: Sub, event: EventId, exec: Exec)

  function Insert<K, V>(rows: map<K, V>, k: K, v: V): map<K, V> {
    if k in rows then rows else rows[k := v]
  }

  /** Deleting a source cascades to its subscriptions, their receipts and its log; Executions always survive. */
  function Apply(db: Db, st: Statement): Db {
    match st
    case Read => db
    case InsertSource(source) => db.(sources := Insert(db.sources, source, true))
    case EnableSource(source, enabled) => if source in db.sources then db.(sources := db.sources[source := enabled]) else db
    case DropSource(source) => db.(
      sources := db.sources - {source},
      log := map k | k in db.log && k.0 != source :: db.log[k],
      subs := map k | k in db.subs && k.source != source :: db.subs[k],
      receipts := map k | k in db.receipts && !(k.0 in db.subs && k.0.source == source) :: db.receipts[k])
    case InsertEvent(source, event, content) => db.(log := Insert(db.log, (source, event), content))
    case InsertSub(sub, row) => db.(subs := Insert(db.subs, sub, row))
    case EnableSub(sub, enabled) => if sub in db.subs then db.(subs := db.subs[sub := db.subs[sub].(enabled := enabled)]) else db
    case DropSub(sub) => db.(
      subs := db.subs - {sub},
      receipts := map k | k in db.receipts && k.0 != sub :: db.receipts[k])
    case Admit(exec, admission) => db.(executions := Insert(db.executions, exec, admission))
    case InsertReceipt(sub, event, exec) => db.(receipts := Insert(db.receipts, (sub, event), exec))
  }

  // ----- Clients -----

  /** How submit ends once its row is reserved. */
  datatype SubmitOutcome = Acknowledged | Held

  /** At most this many subscribers of one event are dispatched by a fan-out or retried. */
  const FANOUT_LIMIT := 10

  /** `admits` is every live check that can refuse on its own: run-as authority, catalog, parse gate. */
  datatype World = World(admits: bool, submit: SubmitOutcome)

  datatype Phase =
    | EmitLoad(source: Source, event: EventId, content: Content)
    | EmitInsert(source: Source, event: EventId, content: Content)
    | EmitCompare(source: Source, event: EventId, content: Content)
    | Emitted(source: Source, event: EventId, content: Content, replayed: bool)
    | Scanned(source: Source, event: EventId, content: Content, todo: set<string>)
    | RetryRead(sub: Sub, event: EventId, filter: string)
    | RetryBound(sub: Sub, event: EventId, content: Content)
    | Fence(sub: Sub, event: EventId, content: Content)
    | Gates(sub: Sub, event: EventId, content: Content, row: SubRow)
    | Submit(sub: Sub, event: EventId, content: Content, row: SubRow)
    | Receipt(sub: Sub, event: EventId, exec: Exec, replayed: bool)
    | Delivered(sub: Sub, event: EventId, exec: Exec, replayed: bool)
    | Refused(code: string)

  predicate Final(phase: Phase) {
    phase.Delivered? || phase.Refused? || (phase.Scanned? && phase.todo == {})
  }

  /** The byte order SQL compares names in. */
  predicate NameBefore(a: string, b: string) {
    |b| > 0 && (|a| == 0 || a[0] < b[0] || (a[0] == b[0] && NameBefore(a[1..], b[1..])))
  }

  /** A subscription a fan-out of this content may dispatch to. */
  predicate Eligible(db: Db, source: Source, content: Content, t: Sub) {
    t in db.subs && t.source == source && db.subs[t].enabled && MatchesTopicFilter(content.topic, db.subs[t].filter)
  }

  /** The eligible subscriptions whose names come first. */
  function Ahead(db: Db, source: Source, content: Content, name: string): set<Sub> {
    set t | t in db.subs && Eligible(db, source, content, t) && NameBefore(t.name, name)
  }

  /** What the one scan of a fan-out picks: the first ten eligible subscriptions in name order. */
  function ScanNames(db: Db, source: Source, content: Content): set<string> {
    set t | t in db.subs && Eligible(db, source, content, t) && |Ahead(db, source, content, t.name)| < FANOUT_LIMIT :: t.name
  }

  function ExecOf(sub: Sub, event: EventId, row: SubRow): Exec {
    Exec(Principal(sub.source.org, row.runAs), DeliveryKey(sub, event))
  }

  function AdmissionOf(content: Content, row: SubRow): Admission {
    Admission(row.saga, Parsed(row.saga, content.payload))
  }

  /** Receipts for this event from the source's subscriptions; a retry does not count its own. */
  function Receipts(db: Db, source: Source, event: EventId): set<Sub> {
    set t | t in db.subs && t.source == source && (t, event) in db.receipts
  }

  function OtherReceipts(db: Db, sub: Sub, event: EventId): set<Sub> {
    Receipts(db, sub.source, event) - {sub}
  }

  function Issue(phase: Phase): Statement {
    match phase
    case EmitInsert(source, event, content) => InsertEvent(source, event, content)
    case Submit(sub, event, content, row) => Admit(ExecOf(sub, event, row), AdmissionOf(content, row))
    case Receipt(sub, event, exec, _) => InsertReceipt(sub, event, exec)
    case _ => Read
  }

  function Resume(db: Db, phase: Phase, w: World): Phase {
    match phase
    case EmitLoad(source, event, content) =>
      if source !in db.sources then Refused("NOT_FOUND")
      else if !db.sources[source] then Refused("EVENT_SOURCE_DISABLED")
      else EmitInsert(source, event, content)
    case EmitInsert(source, event, content) =>
      if (source, event) !in db.log then Emitted(source, event, content, false) else EmitCompare(source, event, content)
    case EmitCompare(source, event, content) =>
      if (source, event) !in db.log || db.log[(source, event)] != content then Refused("EVENT_CONFLICT")
      else Emitted(source, event, content, true)
    case Emitted(source, event, content, _) => Scanned(source, event, content, ScanNames(db, source, content))
    case RetryRead(sub, event, filter) =>
      if (sub.source, event) !in db.log || !MatchesTopicFilter(db.log[(sub.source, event)].topic, filter) then Refused("NOT_FOUND")
      else RetryBound(sub, event, db.log[(sub.source, event)])
    case RetryBound(sub, event, content) =>
      if |OtherReceipts(db, sub, event)| >= FANOUT_LIMIT then Refused("DELIVERY_BOUND_EXCEEDED") else Fence(sub, event, content)
    case Fence(sub, event, content) =>
      if sub !in db.subs then Refused("SUBSCRIPTION_GONE")
      else if !db.subs[sub].enabled then Refused("SUBSCRIPTION_DISABLED")
      else Gates(sub, event, content, db.subs[sub])
    case Gates(sub, event, content, row) => if w.admits then Submit(sub, event, content, row) else Refused("NOT_ADMITTED")
    case Submit(sub, event, content, row) =>
      var exec := ExecOf(sub, event, row);
      if exec in db.executions && db.executions[exec] != AdmissionOf(content, row) then Refused("IDEMPOTENCY_CONFLICT")
      else if w.submit == Held then Refused("SUBMIT_HELD")
      else Receipt(sub, event, exec, exec in db.executions)
    case Receipt(sub, event, exec, replayed) => Delivered(sub, event, exec, replayed)
    case _ => phase
  }

  // ----- The system -----

  datatype State = State(db: Db, clients: map<nat, Phase>)

  datatype Event =
    | Administer(st: Statement)
    | OtherSubmit(caller: Principal, key: string, admission: Admission)
    | BeginEmit(client: nat, source: Source, event: EventId, content: Content)
    | FanOut(client: nat, emitter: nat, name: string)
    | BeginRetry(client: nat, sub: Sub, event: EventId)
    | Advance(client: nat, w: World)
    | Crash(client: nat)

  const INITIAL := State(Db(map[], map[], map[], map[], map[]), map[])

  /** The registry statements an operator can issue directly. */
  predicate IsAdministration(st: Statement) {
    st.InsertSource? || st.EnableSource? || st.DropSource? || st.InsertSub? || st.EnableSub? || st.DropSub?
  }

  function StatementOf(s: State, e: Event): Statement {
    match e
    case Administer(st) => if IsAdministration(st) then st else Read
    case OtherSubmit(caller, key, admission) => Admit(Exec(caller, CallerKey(key)), admission)
    case Advance(client, _) => if client in s.clients then Issue(s.clients[client]) else Read
    case _ => Read
  }

  predicate MayDispatch(s: State, emitter: nat, name: string) {
    emitter in s.clients && s.clients[emitter].Scanned? && name in s.clients[emitter].todo
  }

  /** A fan-out dispatches what its emit returned, to each subscription its scan picked, once; a retry, what it finds in the
    * log. */
  function ClientsAfter(s: State, e: Event): map<nat, Phase> {
    match e
    case BeginEmit(client, source, event, content) =>
      if client in s.clients then s.clients else s.clients[client := EmitLoad(source, event, content)]
    case FanOut(client, emitter, name) =>
      if client !in s.clients && MayDispatch(s, emitter, name)
      then
        var scan := s.clients[emitter];
        s.clients[emitter := scan.(todo := scan.todo - {name})][client := Fence(Sub(scan.source, name), scan.event, scan.content)]
      else s.clients
    case BeginRetry(client, sub, event) =>
      if client !in s.clients && sub in s.db.subs then s.clients[client := RetryRead(sub, event, s.db.subs[sub].filter)] else s.clients
    case Advance(client, w) =>
      if client in s.clients then s.clients[client := Resume(s.db, s.clients[client], w)] else s.clients
    case Crash(client) => if client in s.clients && !Final(s.clients[client]) then s.clients - {client} else s.clients
    case _ => s.clients
  }

  function Step(s: State, e: Event): State {
    State(Apply(s.db, StatementOf(s, e)), ClientsAfter(s, e))
  }

  function Run(s: State, es: seq<Event>): State
    decreases |es|
  {
    if |es| == 0 then s else Run(Step(s, es[0]), es[1..])
  }

  lemma {:induction false} RunConcat(s: State, xs: seq<Event>, ys: seq<Event>)
    ensures Run(s, xs + ys) == Run(Run(s, xs), ys)
    decreases |xs|
  {
    if |xs| == 0 {
      assert xs + ys == ys;
    } else {
      assert (xs + ys)[0] == xs[0] && (xs + ys)[1..] == xs[1..] + ys;
      RunConcat(Step(s, xs[0]), xs[1..], ys);
    }
  }

  lemma RunOne(s: State, e: Event)
    ensures Run(s, [e]) == Step(s, e)
  {
    assert [e][1..] == [];
  }

  /** A crash ends a request that has no answer yet, and nothing else. */
  lemma CrashExactly(s: State, client: nat)
    ensures Step(s, Crash(client)).db == s.db
    ensures Step(s, Crash(client)).clients ==
      if client in s.clients && !s.clients[client].Delivered? && !s.clients[client].Refused? && !(s.clients[client].Scanned? && s.clients[client].todo == {})
      then s.clients - {client} else s.clients
  {
  }

  // ----- At most one Execution per delivery -----

  function Conflicts(db: Db, exec: Exec, admission: Admission): bool {
    exec in db.executions && db.executions[exec] != admission
  }

  predicate IsDelivery(phase: Phase, sub: Sub, event: EventId) {
    (phase.Receipt? || phase.Delivered?) && phase.sub == sub && phase.event == event
  }

  predicate IsSubmit(phase: Phase, sub: Sub, event: EventId) {
    phase.Submit? && phase.sub == sub && phase.event == event
  }

  ghost predicate OneExecution(db: Db, sub: Sub, event: EventId) {
    forall a, b :: a in db.executions && b in db.executions && a.key == DeliveryKey(sub, event) && b.key == DeliveryKey(sub, event) ==> a == b
  }

  /** What the delivery key is for: one Execution, which every delivery and the receipt name, and no submit that conflicts. */
  ghost predicate AtMostOnce(s: State, sub: Sub, event: EventId) {
    && OneExecution(s.db, sub, event)
    && Backed(s, sub, event)
    && (forall c :: c in s.clients && IsSubmit(s.clients[c], sub, event) ==>
          !Conflicts(s.db, ExecOf(sub, event, s.clients[c].row), AdmissionOf(s.clients[c].content, s.clients[c].row)))
  }

  predicate Names(db: Db, sub: Sub, event: EventId, exec: Exec) {
    exec in db.executions && exec.key == DeliveryKey(sub, event)
  }

  /** Deliveries and the receipt name an existing Execution of the delivery. */
  ghost predicate Backed(s: State, sub: Sub, event: EventId) {
    && (forall c :: c in s.clients && IsDelivery(s.clients[c], sub, event) ==> Names(s.db, sub, event, s.clients[c].exec))
    && ((sub, event) in s.db.receipts ==> Names(s.db, sub, event, s.db.receipts[(sub, event)]))
  }

  lemma NamesStay(db: Db, st: Statement, sub: Sub, event: EventId, exec: Exec)
    requires Names(db, sub, event, exec)
    ensures Names(Apply(db, st), sub, event, exec)
  {
  }

  lemma DeliveryOrigin(s: State, e: Event, sub: Sub, event: EventId, c: nat)
    requires c in Step(s, e).clients && IsDelivery(Step(s, e).clients[c], sub, event)
    ensures c in s.clients
    ensures Step(s, e).clients[c] == s.clients[c] || (e.Advance? && e.client == c && Step(s, e).clients[c] == Resume(s.db, s.clients[c], e.w))
  {
  }

  lemma ResumeIsBacked(db: Db, phase: Phase, w: World, sub: Sub, event: EventId)
    requires IsDelivery(Resume(db, phase, w), sub, event) && (IsDelivery(phase, sub, event) ==> Names(db, sub, event, phase.exec))
    ensures Names(Apply(db, Issue(phase)), sub, event, Resume(db, phase, w).exec)
  {
  }

  lemma ClientsStayBacked(s: State, e: Event, sub: Sub, event: EventId, c: nat)
    requires Backed(s, sub, event) && c in Step(s, e).clients && IsDelivery(Step(s, e).clients[c], sub, event)
    ensures Names(Step(s, e).db, sub, event, Step(s, e).clients[c].exec)
  {
    DeliveryOrigin(s, e, sub, event, c);
    if Step(s, e).clients[c] == s.clients[c] {
      NamesStay(s.db, StatementOf(s, e), sub, event, s.clients[c].exec);
    } else {
      ResumeIsBacked(s.db, s.clients[c], e.w, sub, event);
    }
  }

  lemma ReceiptOrigin(db: Db, st: Statement, k: (Sub, EventId))
    requires k in Apply(db, st).receipts
    ensures (k in db.receipts && db.receipts[k] == Apply(db, st).receipts[k]) || st == InsertReceipt(k.0, k.1, Apply(db, st).receipts[k])
  {
  }

  lemma ReceiptStaysBacked(s: State, e: Event, sub: Sub, event: EventId)
    requires Backed(s, sub, event) && (sub, event) in Step(s, e).db.receipts
    ensures Names(Step(s, e).db, sub, event, Step(s, e).db.receipts[(sub, event)])
  {
    var exec := Step(s, e).db.receipts[(sub, event)];
    ReceiptOrigin(s.db, StatementOf(s, e), (sub, event));
    if StatementOf(s, e) == InsertReceipt(sub, event, exec) {
      assert e.Advance? && IsDelivery(s.clients[e.client], sub, event) && s.clients[e.client].exec == exec;
    }
    NamesStay(s.db, StatementOf(s, e), sub, event, exec);
  }

  lemma StepKeepsBacked(s: State, e: Event, sub: Sub, event: EventId)
    requires Backed(s, sub, event)
    ensures Backed(Step(s, e), sub, event)
  {
    var s' := Step(s, e);
    forall c | c in s'.clients && IsDelivery(s'.clients[c], sub, event) ensures Names(s'.db, sub, event, s'.clients[c].exec) {
      ClientsStayBacked(s, e, sub, event, c);
    }
    if (sub, event) in s'.db.receipts {
      ReceiptStaysBacked(s, e, sub, event);
    }
  }

  lemma {:induction false} RunKeepsBacked(s: State, es: seq<Event>, sub: Sub, event: EventId)
    requires Backed(s, sub, event)
    ensures Backed(Run(s, es), sub, event)
    decreases |es|
  {
    if |es| > 0 {
      StepKeepsBacked(s, es[0], sub, event);
      RunKeepsBacked(Step(s, es[0]), es[1..], sub, event);
    }
  }

  // ----- Runs in which every incarnation agrees -----

  /** What the incarnations of a subscription and of a logged event have in common; with a filter named, only the fan-outs
    * it lets through matter. */
  datatype Shape = Shape(saga: string, runAs: string, payload: string, filter: Option<string>)

  function TheExecution(sub: Sub, event: EventId, shape: Shape): Exec {
    Exec(Principal(sub.source.org, shape.runAs), DeliveryKey(sub, event))
  }

  function TheAdmission(shape: Shape): Admission {
    Admission(shape.saga, Parsed(shape.saga, shape.payload))
  }

  predicate RowFits(row: SubRow, shape: Shape) {
    row.saga == shape.saga && row.runAs == shape.runAs && (shape.filter.Some? ==> row.filter == shape.filter.value)
  }

  /** A step that creates the subscription anew creates it with this Saga and run-as user. */
  predicate RowStep(s: State, e: Event, sub: Sub, shape: Shape) {
    StatementOf(s, e).InsertSub? && StatementOf(s, e).sub == sub && sub !in s.db.subs ==> RowFits(StatementOf(s, e).row, shape)
  }

  predicate UniformRows(s: State, es: seq<Event>, sub: Sub, shape: Shape)
    decreases |es|
  {
    |es| == 0 || (RowStep(s, es[0], sub, shape) && UniformRows(Step(s, es[0]), es[1..], sub, shape))
  }

  /** A step that logs the event anew logs it with this payload. */
  predicate LogStep(s: State, e: Event, source: Source, event: EventId, payload: string) {
    StatementOf(s, e).InsertEvent? && StatementOf(s, e).source == source && StatementOf(s, e).event == event && (source, event) !in s.db.log
    ==> StatementOf(s, e).content.payload == payload
  }

  predicate UniformLog(s: State, es: seq<Event>, source: Source, event: EventId, payload: string)
    decreases |es|
  {
    |es| == 0 || (LogStep(s, es[0], source, event, payload) && UniformLog(Step(s, es[0]), es[1..], source, event, payload))
  }

  predicate RowAgrees(row: SubRow, content: Content, shape: Shape) {
    content.payload == shape.payload && row.saga == shape.saga && row.runAs == shape.runAs
  }

  predicate Passes(content: Content, shape: Shape) {
    shape.filter.None? || MatchesTopicFilter(content.topic, shape.filter.value)
  }

  /** What a client carries towards a submit of this delivery. */
  predicate PhaseAgrees(phase: Phase, sub: Sub, event: EventId, shape: Shape) {
    match phase
    case Emitted(source, e, content, _) => source == sub.source && e == event && Passes(content, shape) ==> content.payload == shape.payload
    case Scanned(source, e, content, todo) => source == sub.source && e == event && sub.name in todo ==> content.payload == shape.payload
    case RetryBound(t, e, content) => t == sub && e == event ==> content.payload == shape.payload
    case Fence(t, e, content) => t == sub && e == event ==> content.payload == shape.payload
    case Gates(t, e, content, row) => t == sub && e == event ==> RowAgrees(row, content, shape)
    case Submit(t, e, content, row) => t == sub && e == event ==> RowAgrees(row, content, shape)
    case _ => true
  }

  ghost predicate ExecutionsAgree(db: Db, sub: Sub, event: EventId, shape: Shape) {
    forall a :: a in db.executions && a.key == DeliveryKey(sub, event) ==> a == TheExecution(sub, event, shape) && db.executions[a] == TheAdmission(shape)
  }

  ghost predicate ClientsAgree(s: State, sub: Sub, event: EventId, shape: Shape) {
    forall c :: c in s.clients ==> PhaseAgrees(s.clients[c], sub, event, shape)
  }

  /** Everything stored for the delivery, and everything in flight towards it, has this shape. */
  ghost predicate Agrees(s: State, sub: Sub, event: EventId, shape: Shape) {
    && (sub in s.db.subs ==> RowFits(s.db.subs[sub], shape))
    && ((sub.source, event) in s.db.log ==> s.db.log[(sub.source, event)].payload == shape.payload)
    && ExecutionsAgree(s.db, sub, event, shape)
    && ClientsAgree(s, sub, event, shape)
  }

  lemma ResumeAgrees(s: State, client: nat, w: World, sub: Sub, event: EventId, shape: Shape)
    requires Agrees(s, sub, event, shape) && client in s.clients && LogStep(s, Advance(client, w), sub.source, event, shape.payload)
    ensures PhaseAgrees(Resume(s.db, s.clients[client], w), sub, event, shape)
  {
    assert PhaseAgrees(s.clients[client], sub, event, shape);
    if s.clients[client].Emitted? {
      ScanPicks(s.db, s.clients[client].source, s.clients[client].content, sub);
    }
  }

  /** Only a standing, matching subscription is picked. */
  lemma ScanPicks(db: Db, source: Source, content: Content, sub: Sub)
    ensures source == sub.source && sub.name in ScanNames(db, source, content) ==> Eligible(db, source, content, sub)
  {
  }

  lemma ClientsStayAgreed(s: State, e: Event, sub: Sub, event: EventId, shape: Shape)
    requires Agrees(s, sub, event, shape) && LogStep(s, e, sub.source, event, shape.payload)
    ensures ClientsAgree(Step(s, e), sub, event, shape)
  {
    var s' := Step(s, e);
    forall c | c in s'.clients ensures PhaseAgrees(s'.clients[c], sub, event, shape) {
      if c in s.clients {
        assert PhaseAgrees(s.clients[c], sub, event, shape);
        if e.Advance? && e.client == c {
          ResumeAgrees(s, c, e.w, sub, event, shape);
        }
      } else if e.FanOut? {
        assert PhaseAgrees(s.clients[e.emitter], sub, event, shape);
        assert e.name == sub.name ==> Sub(s.clients[e.emitter].source, e.name).name == sub.name;
      }
    }
  }

  lemma SubOrigin(db: Db, st: Statement, sub: Sub)
    requires sub in Apply(db, st).subs
    ensures if sub in db.subs then Apply(db, st).subs[sub] == db.subs[sub].(enabled := Apply(db, st).subs[sub].enabled)
            else st == InsertSub(sub, Apply(db, st).subs[sub])
  {
  }

  lemma LogOrigin(db: Db, st: Statement, k: (Source, EventId))
    requires k in Apply(db, st).log
    ensures if k in db.log then Apply(db, st).log[k] == db.log[k] else st == InsertEvent(k.0, k.1, Apply(db, st).log[k])
  {
  }

  lemma RowStaysAgreed(s: State, e: Event, sub: Sub, shape: Shape)
    requires RowStep(s, e, sub, shape) && (sub in s.db.subs ==> RowFits(s.db.subs[sub], shape))
    ensures sub in Step(s, e).db.subs ==> RowFits(Step(s, e).db.subs[sub], shape)
  {
    if sub in Step(s, e).db.subs {
      SubOrigin(s.db, StatementOf(s, e), sub);
    }
  }

  lemma LogStaysAgreed(s: State, e: Event, source: Source, event: EventId, payload: string)
    requires LogStep(s, e, source, event, payload) && ((source, event) in s.db.log ==> s.db.log[(source, event)].payload == payload)
    ensures (source, event) in Step(s, e).db.log ==> Step(s, e).db.log[(source, event)].payload == payload
  {
    if (source, event) in Step(s, e).db.log {
      LogOrigin(s.db, StatementOf(s, e), (source, event));
    }
  }

  lemma ExecutionsStayAgreed(s: State, e: Event, sub: Sub, event: EventId, shape: Shape)
    requires ExecutionsAgree(s.db, sub, event, shape) && ClientsAgree(s, sub, event, shape)
    ensures ExecutionsAgree(Step(s, e).db, sub, event, shape)
  {
    if e.Advance? && e.client in s.clients {
      assert PhaseAgrees(s.clients[e.client], sub, event, shape);
    }
  }

  lemma {:induction false} RunAgrees(s: State, es: seq<Event>, sub: Sub, event: EventId, shape: Shape)
    requires Agrees(s, sub, event, shape) && UniformRows(s, es, sub, shape) && UniformLog(s, es, sub.source, event, shape.payload)
    ensures Agrees(Run(s, es), sub, event, shape)
    decreases |es|
  {
    if |es| > 0 {
      ClientsStayAgreed(s, es[0], sub, event, shape);
      RowStaysAgreed(s, es[0], sub, shape);
      LogStaysAgreed(s, es[0], sub.source, event, shape.payload);
      ExecutionsStayAgreed(s, es[0], sub, event, shape);
      RunAgrees(Step(s, es[0]), es[1..], sub, event, shape);
    }
  }

  lemma AgreementIsAtMostOnce(s: State, sub: Sub, event: EventId, shape: Shape)
    requires Agrees(s, sub, event, shape) && Backed(s, sub, event)
    ensures AtMostOnce(s, sub, event)
  {
    forall c | c in s.clients && IsSubmit(s.clients[c], sub, event)
      ensures !Conflicts(s.db, ExecOf(sub, event, s.clients[c].row), AdmissionOf(s.clients[c].content, s.clients[c].row))
    {
      assert PhaseAgrees(s.clients[c], sub, event, shape);
    }
  }

  /** Over any run whatever, deletes of subscription and source included: if every re-creation of the subscription has one
    * Saga and one run-as user, and every new logging of the event has one payload, the delivery stays at most once. */
  lemma UniformIsAtMostOnce(es: seq<Event>, sub: Sub, event: EventId, shape: Shape)
    requires UniformRows(INITIAL, es, sub, shape) && UniformLog(INITIAL, es, sub.source, event, shape.payload)
    ensures AtMostOnce(Run(INITIAL, es), sub, event)
  {
    RunAgrees(INITIAL, es, sub, event, shape);
    RunKeepsBacked(INITIAL, es, sub, event);
    AgreementIsAtMostOnce(Run(INITIAL, es), sub, event, shape);
  }

  // ----- Runs that delete neither, or not the source -----

  /** No step of the run deletes this subscription or its source. */
  predicate Keeps(es: seq<Event>, sub: Sub) {
    KeepsSource(es, sub.source) && forall i :: 0 <= i < |es| ==> es[i] != Administer(DropSub(sub))
  }

  predicate KeepsSource(es: seq<Event>, source: Source) {
    forall i :: 0 <= i < |es| ==> es[i] != Administer(DropSource(source))
  }

  /** As long as the source stands, there is one payload. */
  lemma {:induction false} FirstPayload(s: State, es: seq<Event>, source: Source, event: EventId) returns (payload: string)
    requires KeepsSource(es, source)
    ensures UniformLog(s, es, source, event, payload)
    ensures (source, event) in s.db.log ==> payload == s.db.log[(source, event)].payload
    decreases |es|
  {
    if |es| == 0 {
      payload := if (source, event) in s.db.log then s.db.log[(source, event)].payload else "";
    } else {
      payload := FirstPayload(Step(s, es[0]), es[1..], source, event);
    }
  }

  /** As long as the subscription stands, there is one row. */
  lemma {:induction false} FirstRow(s: State, es: seq<Event>, sub: Sub, payload: string) returns (shape: Shape)
    requires Keeps(es, sub)
    ensures shape.payload == payload && UniformRows(s, es, sub, shape)
    ensures sub in s.db.subs ==> RowFits(s.db.subs[sub], shape)
    decreases |es|
  {
    if |es| == 0 {
      shape := if sub in s.db.subs then Shape(s.db.subs[sub].saga, s.db.subs[sub].runAs, payload, None) else Shape("", "", payload, None);
    } else {
      if sub in s.db.subs {
        RowRemains(s, es[0], sub);
      }
      shape := FirstRow(Step(s, es[0]), es[1..], sub, payload);
    }
  }

  lemma RowRemains(s: State, e: Event, sub: Sub)
    requires sub in s.db.subs && e != Administer(DropSub(sub)) && e != Administer(DropSource(sub.source))
    ensures sub in Step(s, e).db.subs && Step(s, e).db.subs[sub] == s.db.subs[sub].(enabled := Step(s, e).db.subs[sub].enabled)
  {
    SubRemains(s.db, StatementOf(s, e), sub);
    SubOrigin(s.db, StatementOf(s, e), sub);
  }

  lemma SubRemains(db: Db, st: Statement, sub: Sub)
    requires sub in db.subs && st != DropSub(sub) && st != DropSource(sub.source)
    ensures sub in Apply(db, st).subs
  {
  }

  /** Until somebody deletes the subscription or its source, any sequence of emits, re-emits, fan-outs and retries
    * creates at most one Execution for an event, every delivery and the receipt name that Execution, and no dispatch
    * can meet an idempotency conflict. */
  lemma DeliveryIsAtMostOnce(es: seq<Event>, sub: Sub, event: EventId)
    requires Keeps(es, sub)
    ensures AtMostOnce(Run(INITIAL, es), sub, event)
  {
    var payload := FirstPayload(INITIAL, es, sub.source, event);
    var shape := FirstRow(INITIAL, es, sub, payload);
    UniformIsAtMostOnce(es, sub, event, shape);
  }

  /** The subscription may be deleted and created again at will, as long as its source stands and every row it is created
    * with names the same Saga and run-as user. */
  lemma SameRowsAreAtMostOnce(es: seq<Event>, sub: Sub, event: EventId, saga: string, runAs: string)
    requires KeepsSource(es, sub.source)
    requires forall i :: 0 <= i < |es| && es[i].Administer? && es[i].st.InsertSub? && es[i].st.sub == sub ==>
      es[i].st.row.saga == saga && es[i].st.row.runAs == runAs
    ensures AtMostOnce(Run(INITIAL, es), sub, event)
  {
    var payload := FirstPayload(INITIAL, es, sub.source, event);
    SameRows(INITIAL, es, sub, Shape(saga, runAs, payload, None));
    UniformIsAtMostOnce(es, sub, event, Shape(saga, runAs, payload, None));
  }

  lemma {:induction false} SameRows(s: State, es: seq<Event>, sub: Sub, shape: Shape)
    requires forall i :: 0 <= i < |es| && es[i].Administer? && es[i].st.InsertSub? && es[i].st.sub == sub ==> RowFits(es[i].st.row, shape)
    ensures UniformRows(s, es, sub, shape)
    decreases |es|
  {
    if |es| > 0 {
      assert RowStep(s, es[0], sub, shape);
      SameRows(Step(s, es[0]), es[1..], sub, shape);
    }
  }

  lemma LogEntryStays(db: Db, st: Statement, source: Source, event: EventId)
    requires (source, event) in db.log && st != DropSource(source)
    ensures (source, event) in Apply(db, st).log && Apply(db, st).log[(source, event)] == db.log[(source, event)]
  {
  }

  /** What a source logged under an event id never changes while the source stands, from any state. */
  lemma {:induction false} LoggedContentIsFinal(s: State, es: seq<Event>, source: Source, event: EventId)
    requires (source, event) in s.db.log && KeepsSource(es, source)
    ensures (source, event) in Run(s, es).db.log && Run(s, es).db.log[(source, event)] == s.db.log[(source, event)]
    decreases |es|
  {
    if |es| > 0 {
      LogEntryStays(s.db, StatementOf(s, es[0]), source, event);
      LoggedContentIsFinal(Step(s, es[0]), es[1..], source, event);
    }
  }

  // ----- What an emit answers is what is logged -----

  /** An emit that was accepted, or its fan-out, carries the logged content. */
  predicate CarriesLogged(db: Db, phase: Phase, source: Source, event: EventId) {
    (phase.Emitted? || phase.Scanned?) && phase.source == source && phase.event == event ==>
      (source, event) in db.log && db.log[(source, event)] == phase.content
  }

  lemma ResumeCarries(db: Db, phase: Phase, w: World, source: Source, event: EventId)
    requires CarriesLogged(db, phase, source, event)
    ensures CarriesLogged(Apply(db, Issue(phase)), Resume(db, phase, w), source, event)
  {
  }

  lemma StepCarries(s: State, e: Event, source: Source, event: EventId, c: nat)
    requires forall d :: d in s.clients ==> CarriesLogged(s.db, s.clients[d], source, event)
    requires e != Administer(DropSource(source)) && c in Step(s, e).clients
    ensures CarriesLogged(Step(s, e).db, Step(s, e).clients[c], source, event)
  {
    if (source, event) in s.db.log {
      LogEntryStays(s.db, StatementOf(s, e), source, event);
    }
    if e.Advance? && e.client == c && c in s.clients {
      ResumeCarries(s.db, s.clients[c], e.w, source, event);
    } else if c in s.clients {
      assert CarriesLogged(s.db, s.clients[c], source, event);
    }
  }

  lemma {:induction false} RunCarries(s: State, es: seq<Event>, source: Source, event: EventId)
    requires KeepsSource(es, source) && forall c :: c in s.clients ==> CarriesLogged(s.db, s.clients[c], source, event)
    ensures forall c :: c in Run(s, es).clients ==> CarriesLogged(Run(s, es).db, Run(s, es).clients[c], source, event)
    decreases |es|
  {
    if |es| > 0 {
      forall c | c in Step(s, es[0]).clients ensures CarriesLogged(Step(s, es[0]).db, Step(s, es[0]).clients[c], source, event) {
        StepCarries(s, es[0], source, event, c);
      }
      RunCarries(Step(s, es[0]), es[1..], source, event);
    }
  }

  /** While the source stands, every accepted emit, and every fan-out from its scan on, carries topic, payload and execution
    * exactly as they are logged under its event id. */
  lemma EmittedIsLogged(es: seq<Event>, c: nat)
    requires c in Run(INITIAL, es).clients && (Run(INITIAL, es).clients[c].Emitted? || Run(INITIAL, es).clients[c].Scanned?)
    requires KeepsSource(es, Run(INITIAL, es).clients[c].source)
    ensures var s, phase := Run(INITIAL, es), Run(INITIAL, es).clients[c];
      (phase.source, phase.event) in s.db.log && s.db.log[(phase.source, phase.event)] == phase.content
  {
    var phase := Run(INITIAL, es).clients[c];
    RunCarries(INITIAL, es, phase.source, phase.event);
  }

  // ----- When another incarnation breaks it -----

  const ADMIT := World(true, Acknowledged)

  /** This subscription row stands and this content is logged. */
  predicate Stands(db: Db, sub: Sub, event: EventId, row: SubRow, content: Content) {
    && sub in db.subs && db.subs[sub] == row.(enabled := db.subs[sub].enabled)
    && (sub.source, event) in db.log && db.log[(sub.source, event)] == content
  }

  /** What the next dispatch of that content to that row carries. */
  function ShapeOf(row: SubRow, content: Content): Shape {
    Shape(row.saga, row.runAs, content.payload, Some(row.filter))
  }

  lemma StatementKeepsStanding(db: Db, st: Statement, sub: Sub, event: EventId, row: SubRow, content: Content)
    requires Stands(db, sub, event, row, content) && st != DropSub(sub) && st != DropSource(sub.source)
    ensures Stands(Apply(db, st), sub, event, row, content)
  {
    assert sub in Apply(db, st).subs && (sub.source, event) in Apply(db, st).log;
    SubOrigin(db, st, sub);
    LogOrigin(db, st, (sub.source, event));
  }

  lemma StandsStill(s: State, e: Event, sub: Sub, event: EventId, row: SubRow, content: Content)
    requires Stands(s.db, sub, event, row, content) && Keeps([e], sub)
    ensures Stands(Step(s, e).db, sub, event, row, content)
  {
    assert [e][0] == e;
    StatementKeepsStanding(s.db, StatementOf(s, e), sub, event, row, content);
  }

  /** Some run that deletes neither subscription nor source ends with more than one Execution or with a conflict. */
  ghost predicate Breaks(s: State, sub: Sub, event: EventId) {
    exists after :: Keeps(after, sub) && !AtMostOnce(Run(s, after), sub, event)
  }

  lemma BreaksNow(s: State, sub: Sub, event: EventId)
    requires !AtMostOnce(s, sub, event)
    ensures Breaks(s, sub, event)
  {
    assert Keeps([], sub) && Run(s, []) == s;
  }

  lemma BreaksLater(s: State, e: Event, sub: Sub, event: EventId)
    requires Keeps([e], sub) && Breaks(Step(s, e), sub, event)
    ensures Breaks(s, sub, event)
  {
    var after :| Keeps(after, sub) && !AtMostOnce(Run(Step(s, e), after), sub, event);
    RunConcat(s, [e], after);
    RunOne(s, e);
    assert [e][0] == e;
    assert Keeps([e] + after, sub);
  }

  lemma TwoExecutions(db: Db, sub: Sub, event: EventId, shape: Shape)
    requires Names(db, sub, event, TheExecution(sub, event, shape)) && db.executions[TheExecution(sub, event, shape)] == TheAdmission(shape)
    requires !ExecutionsAgree(db, sub, event, shape)
    ensures !OneExecution(db, sub, event)
  {
  }

  lemma SubmitStep(s: State, c: nat, sub: Sub, event: EventId)
    requires c in s.clients && IsSubmit(s.clients[c], sub, event)
    ensures var exec, admission := ExecOf(sub, event, s.clients[c].row), AdmissionOf(s.clients[c].content, s.clients[c].row);
      Step(s, Advance(c, ADMIT)).db == Apply(s.db, Admit(exec, admission))
  {
  }

  /** A client at its submit, which disagrees with the standing row or finds an Execution that does. */
  lemma {:induction false} FromSubmit(s: State, c: nat, sub: Sub, event: EventId, row: SubRow, content: Content)
    requires Stands(s.db, sub, event, row, content) && MatchesTopicFilter(content.topic, row.filter)
    requires c in s.clients && IsSubmit(s.clients[c], sub, event)
    requires !PhaseAgrees(s.clients[c], sub, event, ShapeOf(row, content)) || !ExecutionsAgree(s.db, sub, event, ShapeOf(row, content))
    ensures Breaks(s, sub, event)
    decreases if PhaseAgrees(s.clients[c], sub, event, ShapeOf(row, content)) then 0 else 1, 0, 0
  {
    var phase, shape, e := s.clients[c], ShapeOf(row, content), Advance(c, ADMIT);
    var exec, admission := ExecOf(sub, event, phase.row), AdmissionOf(phase.content, phase.row);
    if Conflicts(s.db, exec, admission) {
      BreaksNow(s, sub, event);
    } else {
      SubmitStep(s, c, sub, event);
      StandsStill(s, e, sub, event, row, content);
      var db' := Step(s, e).db;
      assert db'.executions == s.db.executions[exec := admission];
      if PhaseAgrees(phase, sub, event, shape) {
        TwoExecutions(db', sub, event, shape);
        BreaksNow(Step(s, e), sub, event);
      } else {
        assert !ExecutionsAgree(db', sub, event, shape);
        FromExecution(Step(s, e), sub, event, row, content);
      }
      BreaksLater(s, e, sub, event);
    }
  }

  lemma {:induction false} FromGates(s: State, c: nat, sub: Sub, event: EventId, row: SubRow, content: Content)
    requires Stands(s.db, sub, event, row, content) && MatchesTopicFilter(content.topic, row.filter)
    requires c in s.clients && s.clients[c].Gates? && s.clients[c].sub == sub && s.clients[c].event == event
    requires !PhaseAgrees(s.clients[c], sub, event, ShapeOf(row, content)) || !ExecutionsAgree(s.db, sub, event, ShapeOf(row, content))
    ensures Breaks(s, sub, event)
    decreases if PhaseAgrees(s.clients[c], sub, event, ShapeOf(row, content)) then 0 else 1, 1, 0
  {
    var e := Advance(c, ADMIT);
    assert Step(s, e).clients[c] == Submit(sub, event, s.clients[c].content, s.clients[c].row) && Step(s, e).db == s.db;
    FromSubmit(Step(s, e), c, sub, event, row, content);
    BreaksLater(s, e, sub, event);
  }

  lemma {:induction false} FromFence(s: State, c: nat, sub: Sub, event: EventId, row: SubRow, content: Content)
    requires Stands(s.db, sub, event, row, content) && MatchesTopicFilter(content.topic, row.filter)
    requires c in s.clients && s.clients[c].Fence? && s.clients[c].sub == sub && s.clients[c].event == event
    requires !PhaseAgrees(s.clients[c], sub, event, ShapeOf(row, content)) || !ExecutionsAgree(s.db, sub, event, ShapeOf(row, content))
    ensures Breaks(s, sub, event)
    decreases if PhaseAgrees(s.clients[c], sub, event, ShapeOf(row, content)) then 0 else 1, 2, 0
  {
    var enable, e := Administer(EnableSub(sub, true)), Advance(c, ADMIT);
    var s1 := Step(s, enable);
    StandsStill(s, enable, sub, event, row, content);
    assert s1.db.executions == s.db.executions && s1.clients == s.clients;
    var s2 := Step(s1, e);
    assert s2.clients[c] == Gates(sub, event, s.clients[c].content, s1.db.subs[sub]) && s2.db == s1.db;
    FromGates(s2, c, sub, event, row, content);
    BreaksLater(s1, e, sub, event);
    BreaksLater(s, enable, sub, event);
  }

  /** A retry whose siblings fill the bound gets through once enough of them are deleted. */
  lemma {:induction false} FromRetryBound(s: State, c: nat, sub: Sub, event: EventId, row: SubRow, content: Content)
    requires Stands(s.db, sub, event, row, content) && MatchesTopicFilter(content.topic, row.filter)
    requires c in s.clients && s.clients[c].RetryBound? && s.clients[c].sub == sub && s.clients[c].event == event
    requires !PhaseAgrees(s.clients[c], sub, event, ShapeOf(row, content)) || !ExecutionsAgree(s.db, sub, event, ShapeOf(row, content))
    ensures Breaks(s, sub, event)
    decreases if PhaseAgrees(s.clients[c], sub, event, ShapeOf(row, content)) then 0 else 1, 3, |OtherReceipts(s.db, sub, event)|
  {
    if |OtherReceipts(s.db, sub, event)| >= FANOUT_LIMIT {
      var t :| t in OtherReceipts(s.db, sub, event);
      var e := Administer(DropSub(t));
      DropOther(s, t, sub, event, row, content);
      FromRetryBound(Step(s, e), c, sub, event, row, content);
      BreaksLater(s, e, sub, event);
    } else {
      var e := Advance(c, ADMIT);
      RetryPasses(s, c);
      FromFence(Step(s, e), c, sub, event, row, content);
      BreaksLater(s, e, sub, event);
    }
  }

  lemma RetryPasses(s: State, c: nat)
    requires c in s.clients && s.clients[c].RetryBound?
    requires |OtherReceipts(s.db, s.clients[c].sub, s.clients[c].event)| < FANOUT_LIMIT
    ensures var s' := Step(s, Advance(c, ADMIT));
      c in s'.clients && s'.clients[c] == Fence(s.clients[c].sub, s.clients[c].event, s.clients[c].content) && s'.db == s.db
  {
  }

  lemma DropOther(s: State, t: Sub, sub: Sub, event: EventId, row: SubRow, content: Content)
    requires Stands(s.db, sub, event, row, content) && t in OtherReceipts(s.db, sub, event)
    ensures var s', e := Step(s, Administer(DropSub(t))), Administer(DropSub(t));
      && Keeps([e], sub) && Stands(s'.db, sub, event, row, content) && s'.clients == s.clients && s'.db.executions == s.db.executions
      && |OtherReceipts(s'.db, sub, event)| < |OtherReceipts(s.db, sub, event)|
  {
    StandsStill(s, Administer(DropSub(t)), sub, event, row, content);
    DropMakesRoom(s.db, t, sub, event);
  }

  lemma DropMakesRoom(db: Db, t: Sub, sub: Sub, event: EventId)
    requires t in OtherReceipts(db, sub, event)
    ensures |OtherReceipts(Apply(db, DropSub(t)), sub, event)| < |OtherReceipts(db, sub, event)|
  {
    assert OtherReceipts(Apply(db, DropSub(t)), sub, event) <= OtherReceipts(db, sub, event) - {t};
    SubsetCount(OtherReceipts(Apply(db, DropSub(t)), sub, event), OtherReceipts(db, sub, event) - {t});
  }

  /** An Execution of the delivery that disagrees with the standing row: a new retry runs into it. */
  lemma {:induction false} FromExecution(s: State, sub: Sub, event: EventId, row: SubRow, content: Content)
    requires Stands(s.db, sub, event, row, content) && MatchesTopicFilter(content.topic, row.filter)
    requires !ExecutionsAgree(s.db, sub, event, ShapeOf(row, content))
    ensures Breaks(s, sub, event)
    decreases 0, 4, 0
  {
    var d := Above(s.clients.Keys);
    var begin, e := BeginRetry(d, sub, event), Advance(d, ADMIT);
    RetryReads(s, d, sub, event, row, content);
    FromRetryBound(Step(Step(s, begin), e), d, sub, event, row, content);
    BreaksLater(Step(s, begin), e, sub, event);
    BreaksLater(s, begin, sub, event);
  }

  lemma RetryReads(s: State, d: nat, sub: Sub, event: EventId, row: SubRow, content: Content)
    requires Stands(s.db, sub, event, row, content) && MatchesTopicFilter(content.topic, row.filter) && d !in s.clients
    ensures var s2 := Step(Step(s, BeginRetry(d, sub, event)), Advance(d, ADMIT));
      d in s2.clients && s2.clients[d] == RetryBound(sub, event, content) && s2.db == s.db
  {
    var s1 := Step(s, BeginRetry(d, sub, event));
    assert s1.clients[d] == RetryRead(sub, event, row.filter) && s1.db == s.db;
  }

  /** A fan-out that still has the subscription on its list. */
  lemma FromScanned(s: State, c: nat, sub: Sub, event: EventId, row: SubRow, content: Content)
    requires Stands(s.db, sub, event, row, content) && MatchesTopicFilter(content.topic, row.filter)
    requires c in s.clients && s.clients[c].Scanned? && !PhaseAgrees(s.clients[c], sub, event, ShapeOf(row, content))
    ensures Breaks(s, sub, event)
  {
    var d := Above(s.clients.Keys);
    var e := FanOut(d, c, sub.name);
    assert Sub(sub.source, sub.name) == sub;
    assert Step(s, e).clients[d] == Fence(sub, event, s.clients[c].content) && Step(s, e).db == s.db;
    FromFence(Step(s, e), d, sub, event, row, content);
    BreaksLater(s, e, sub, event);
  }

  lemma {:induction false} NotBeforeItself(name: string)
    ensures !NameBefore(name, name)
    decreases |name|
  {
    if |name| > 0 {
      NotBeforeItself(name[1..]);
    }
  }

  /** An emit that has not scanned yet picks the subscription once it is enabled and enough of those ahead are deleted. */
  lemma {:induction false} FromEnabled(s: State, c: nat, sub: Sub, event: EventId, row: SubRow, content: Content)
    requires Stands(s.db, sub, event, row, content) && MatchesTopicFilter(content.topic, row.filter) && s.db.subs[sub].enabled
    requires c in s.clients && s.clients[c].Emitted? && !PhaseAgrees(s.clients[c], sub, event, ShapeOf(row, content))
    ensures Breaks(s, sub, event)
    decreases |Ahead(s.db, sub.source, s.clients[c].content, sub.name)|
  {
    var ahead := Ahead(s.db, sub.source, s.clients[c].content, sub.name);
    if |ahead| >= FANOUT_LIMIT {
      var t :| t in ahead;
      var e := Administer(DropSub(t));
      DropAhead(s, t, s.clients[c].content, sub, event, row, content);
      FromEnabled(Step(s, e), c, sub, event, row, content);
      BreaksLater(s, e, sub, event);
    } else {
      var e := Advance(c, ADMIT);
      EmitScans(s, c, sub);
      FromScanned(Step(s, e), c, sub, event, row, content);
      BreaksLater(s, e, sub, event);
    }
  }

  lemma EmitScans(s: State, c: nat, sub: Sub)
    requires c in s.clients && s.clients[c].Emitted? && s.clients[c].source == sub.source
    requires Eligible(s.db, sub.source, s.clients[c].content, sub)
    requires |Ahead(s.db, sub.source, s.clients[c].content, sub.name)| < FANOUT_LIMIT
    ensures var s' := Step(s, Advance(c, ADMIT));
      && s'.db == s.db && c in s'.clients && s'.clients[c].Scanned? && sub.name in s'.clients[c].todo
      && s'.clients[c].source == s.clients[c].source && s'.clients[c].event == s.clients[c].event && s'.clients[c].content == s.clients[c].content
  {
    assert sub.name in ScanNames(s.db, sub.source, s.clients[c].content);
  }

  lemma DropAhead(s: State, t: Sub, emitted: Content, sub: Sub, event: EventId, row: SubRow, content: Content)
    requires Stands(s.db, sub, event, row, content) && t in Ahead(s.db, sub.source, emitted, sub.name)
    ensures var e := Administer(DropSub(t));
      var s' := Step(s, e);
      && Keeps([e], sub) && Stands(s'.db, sub, event, row, content) && s'.clients == s.clients && s'.db.subs[sub] == s.db.subs[sub]
      && |Ahead(s'.db, sub.source, emitted, sub.name)| < |Ahead(s.db, sub.source, emitted, sub.name)|
  {
    NotBeforeItself(sub.name);
    StandsStill(s, Administer(DropSub(t)), sub, event, row, content);
    FewerAhead(s.db, t, sub.source, emitted, sub.name);
  }

  lemma FewerAhead(db: Db, t: Sub, source: Source, emitted: Content, name: string)
    requires t in Ahead(db, source, emitted, name)
    ensures |Ahead(Apply(db, DropSub(t)), source, emitted, name)| < |Ahead(db, source, emitted, name)|
  {
    assert Ahead(Apply(db, DropSub(t)), source, emitted, name) <= Ahead(db, source, emitted, name) - {t};
    SubsetCount(Ahead(Apply(db, DropSub(t)), source, emitted, name), Ahead(db, source, emitted, name) - {t});
  }

  lemma FromEmitted(s: State, c: nat, sub: Sub, event: EventId, row: SubRow, content: Content)
    requires Stands(s.db, sub, event, row, content) && MatchesTopicFilter(content.topic, row.filter)
    requires c in s.clients && s.clients[c].Emitted? && !PhaseAgrees(s.clients[c], sub, event, ShapeOf(row, content))
    ensures Breaks(s, sub, event)
  {
    var e := Administer(EnableSub(sub, true));
    StandsStill(s, e, sub, event, row, content);
    assert Step(s, e).clients == s.clients && Step(s, e).db.subs[sub].enabled;
    FromEnabled(Step(s, e), c, sub, event, row, content);
    BreaksLater(s, e, sub, event);
  }

  lemma DisagreementBreaks(s: State, sub: Sub, event: EventId, row: SubRow, content: Content)
    requires Stands(s.db, sub, event, row, content) && MatchesTopicFilter(content.topic, row.filter)
    requires !Agrees(s, sub, event, ShapeOf(row, content))
    ensures Breaks(s, sub, event)
  {
    var shape := ShapeOf(row, content);
    if !ExecutionsAgree(s.db, sub, event, shape) {
      FromExecution(s, sub, event, row, content);
    } else {
      var c :| c in s.clients && !PhaseAgrees(s.clients[c], sub, event, shape);
      match s.clients[c]
      case Emitted(_, _, _, _) => FromEmitted(s, c, sub, event, row, content);
      case Scanned(_, _, _, _) => FromScanned(s, c, sub, event, row, content);
      case RetryBound(_, _, _) => FromRetryBound(s, c, sub, event, row, content);
      case Fence(_, _, _) => FromFence(s, c, sub, event, row, content);
      case Gates(_, _, _, _) => FromGates(s, c, sub, event, row, content);
      case Submit(_, _, _, _) => FromSubmit(s, c, sub, event, row, content);
    }
  }

  lemma {:induction false} StandingIsUniform(s: State, es: seq<Event>, sub: Sub, event: EventId, row: SubRow, content: Content)
    requires Stands(s.db, sub, event, row, content) && Keeps(es, sub)
    ensures UniformRows(s, es, sub, ShapeOf(row, content)) && UniformLog(s, es, sub.source, event, content.payload)
    decreases |es|
  {
    if |es| > 0 {
      assert [es[0]][0] == es[0];
      StandsStill(s, es[0], sub, event, row, content);
      StandingIsUniform(Step(s, es[0]), es[1..], sub, event, row, content);
    }
  }

  /** After any history of deletes and re-creations, with the subscription standing and a matching event logged: the
    * delivery stays at most once over every further run without deletes exactly when every Execution of the delivery and
    * everything already in flight towards it has the Saga and run-as user of the standing row and the logged payload. In
    * flight are an emit of a matching topic that has not scanned yet, a fan-out that still has the subscription on its
    * list, and a retry or a dispatch on its way to its submit; a request that is over is not. */
  lemma StaysAtMostOnceExactly(before: seq<Event>, sub: Sub, event: EventId)
    requires sub in Run(INITIAL, before).db.subs && (sub.source, event) in Run(INITIAL, before).db.log
    requires var db := Run(INITIAL, before).db; MatchesTopicFilter(db.log[(sub.source, event)].topic, db.subs[sub].filter)
    ensures var s := Run(INITIAL, before);
      (forall after :: Keeps(after, sub) ==> AtMostOnce(Run(s, after), sub, event)) <==>
      var shape := ShapeOf(s.db.subs[sub], s.db.log[(sub.source, event)]);
      ExecutionsAgree(s.db, sub, event, shape) && ClientsAgree(s, sub, event, shape)
  {
    var s := Run(INITIAL, before);
    var row, content := s.db.subs[sub], s.db.log[(sub.source, event)];
    RunKeepsBacked(INITIAL, before, sub, event);
    if Agrees(s, sub, event, ShapeOf(row, content)) {
      forall after | Keeps(after, sub) ensures AtMostOnce(Run(s, after), sub, event) {
        StandingIsUniform(s, after, sub, event, row, content);
        RunAgrees(s, after, sub, event, ShapeOf(row, content));
        RunKeepsBacked(s, after, sub, event);
        AgreementIsAtMostOnce(Run(s, after), sub, event, ShapeOf(row, content));
      }
    } else {
      DisagreementBreaks(s, sub, event, row, content);
    }
  }

}
