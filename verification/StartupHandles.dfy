/** One-time form sessions. A handle is bound to the first idempotency key that claims it; the claim is the fence in
  * front of dispatch, and the handle is spent after admission. Every SQL statement is one atomic step. */
module StartupHandles {

  import opened Wrappers
  import opened Identity

  const STARTUP_TTL_MS := 30 * 60 * 1000

  type Handle = string

  datatype Session = Session(
    caller: Principal, formId: string, formName: string,
    expires: int, used: Option<int>, claimed: Option<string>)

  /** The columns of an Execution row that prove whose submission it is. */
  datatype Admission = Admission(saga: string, input: string)

  datatype Db = Db(sessions: map<Handle, Session>, executions: map<Id, Admission>)

  /** One form submission under one idempotency key. */
  datatype Submission = Submission(caller: Principal, formId: string, formName: string, handle: Handle, key: string, admission: Admission)

  function ExecutionIdOf(sub: Submission): Id {
    Top(sub.caller, sub.key)
  }

  // ----- Statements -----

  datatype Statement =
    | Read
    | Mint(handle: Handle, session: Session)
    | DeleteSessions(handles: set<Handle>)
    | Reserve(handle: Handle, key: string)
    | Consume(handle: Handle, claim: Option<string>, now: int)
    | Bind(handle: Handle, key: string)
    | Admit(id: Id, admission: Admission)

  /** The WHERE clause of an UPDATE, on the row its handle selects. A comparison with a NULL column is never true. */
  predicate Meets(session: Session, st: Statement) {
    match st
    case Reserve(_, key) =>
      (session.used.None? || session.claimed == Some(key)) && (session.claimed.None? || session.claimed == Some(key))
    case Consume(_, claim, _) => session.used.None? && (session.claimed.None? || session.claimed == claim)
    case Bind(_, key) => session.claimed == Some(key) || session.claimed.None?
    case _ => false
  }

  predicate Changes(db: Db, st: Statement) {
    (st.Reserve? || st.Consume? || st.Bind?) && st.handle in db.sessions && Meets(db.sessions[st.handle], st)
  }

  function Rewrite(session: Session, st: Statement): Session {
    match st
    case Reserve(_, key) => session.(claimed := Some(key))
    case Consume(_, claim, now) => session.(used := Some(now), claimed := claim)
    case Bind(_, key) => session.(claimed := Some(key))
    case _ => session
  }

  function Apply(db: Db, st: Statement): Db {
    match st
    case Read => db
    case Mint(handle, session) => if handle in db.sessions then db else db.(sessions := db.sessions[handle := session])
    case DeleteSessions(handles) => db.(sessions := db.sessions - handles)
    case Admit(id, admission) => if id in db.executions then db else db.(executions := db.executions[id := admission])
    case _ => if Changes(db, st) then db.(sessions := db.sessions[st.handle := Rewrite(db.sessions[st.handle], st)]) else db
  }

  // ----- The route -----

  /** The SELECT shared by peek, reserve and consume finds a session this submission may use. */
  predicate Live(db: Db, sub: Submission, now: int) {
    && sub.handle in db.sessions
    && var session := db.sessions[sub.handle];
       && session.caller == sub.caller && session.formName == sub.formName && session.formId == sub.formId
       && !(session.used.Some? && session.claimed.Some? && session.claimed != Some(sub.key))
       && session.expires > now
  }

  predicate OwnAdmission(db: Db, sub: Submission) {
    ExecutionIdOf(sub) in db.executions && db.executions[ExecutionIdOf(sub)] == sub.admission
  }

  /** How submit ends once its row is reserved: acknowledged, possibly started without an answer, or held at a gate. */
  datatype SubmitOutcome = Acknowledged | Unconfirmed | Held

  datatype World = World(now: int, valid: bool, submit: SubmitOutcome)

  datatype Phase =
    | Peek(sub: Submission)
    | Validate(sub: Submission)
    | ReservePeek(sub: Submission)
    | ReserveWrite(sub: Submission)
    | Submit(sub: Submission)
    | ConsumePeek(sub: Submission)
    | ConsumeWrite(sub: Submission)
    | VerifyRead(sub: Submission)
    | VerifyWrite(sub: Submission)
    | Answered(sub: Submission)
    | Stale(sub: Submission)
    | Rejected(sub: Submission, code: string)

  predicate Final(phase: Phase) {
    phase.Answered? || phase.Stale? || phase.Rejected?
  }

  /** Past the fence: the handle was reserved by this submission. */
  predicate Fenced(phase: Phase) {
    phase.Submit? || AfterAdmission(phase) || phase.Answered?
  }

  predicate AfterAdmission(phase: Phase) {
    phase.ConsumePeek? || phase.ConsumeWrite? || phase.VerifyRead? || phase.VerifyWrite?
  }

  function Issue(phase: Phase, w: World): Statement {
    match phase
    case ReserveWrite(sub) => Reserve(sub.handle, sub.key)
    case Submit(sub) => Admit(ExecutionIdOf(sub), sub.admission)
    case ConsumeWrite(sub) => Consume(sub.handle, Some(sub.key), w.now)
    case VerifyWrite(sub) => Bind(sub.handle, sub.key)
    case _ => Read
  }

  function Resume(db: Db, phase: Phase, w: World): Phase {
    match phase
    case Peek(sub) => if Live(db, sub, w.now) then Validate(sub) else Stale(sub)
    case Validate(sub) => if w.valid then ReservePeek(sub) else Rejected(sub, "FORM_VALIDATION_FAILED")
    case ReservePeek(sub) => if Live(db, sub, w.now) then ReserveWrite(sub) else Stale(sub)
    case ReserveWrite(sub) => if Changes(db, Issue(phase, w)) then Submit(sub) else Stale(sub)
    case Submit(sub) =>
      if ExecutionIdOf(sub) in db.executions && !OwnAdmission(db, sub) then Rejected(sub, "IDEMPOTENCY_CONFLICT")
      else if w.submit == Acknowledged then ConsumePeek(sub)
      else Rejected(sub, if w.submit == Unconfirmed then "DISPATCH_UNCONFIRMED" else "SUBMIT_HELD")
    case ConsumePeek(sub) => if Live(db, sub, w.now) then ConsumeWrite(sub) else VerifyRead(sub)
    case ConsumeWrite(sub) => if Changes(db, Issue(phase, w)) then Answered(sub) else VerifyRead(sub)
    case VerifyRead(sub) => if OwnAdmission(db, sub) then VerifyWrite(sub) else Stale(sub)
    case VerifyWrite(sub) => if Changes(db, Issue(phase, w)) then Answered(sub) else Stale(sub)
    case _ => phase
  }

  /** This step may start a Workflow for the submission. */
  predicate Dispatches(db: Db, phase: Phase, w: World) {
    && phase.Submit? && w.submit != Held
    && (ExecutionIdOf(phase.sub) !in db.executions || OwnAdmission(db, phase.sub))
  }

  // ----- The system -----

  /** History no client reads: who each handle was minted for, the keys that ever won each handle, and what was
    * dispatched through it. */
  datatype State = State(
    db: Db, clients: map<nat, Phase>,
    owners: map<Handle, Principal>, winners: set<(Handle, string)>, dispatched: set<(Handle, Id)>)

  datatype Event =
    | StartForm(handle: Handle, caller: Principal, formId: string, formName: string, now: int)
    | Sweep(handles: set<Handle>, now: int)
    | Invalidate(user: string)
    | ConsumeUnkeyed(handle: Handle, now: int)
    | OtherSubmit(id: Id, admission: Admission)
    | Begin(client: nat, sub: Submission)
    | Advance(client: nat, w: World)
    | Crash(client: nat)

  const INITIAL := State(Db(map[], map[]), map[], map[], {}, {})

  /** A startup handle is 256 random bits: the model never mints one twice. */
  function StatementOf(s: State, e: Event): Statement {
    match e
    case StartForm(handle, caller, formId, formName, now) =>
      if handle in s.owners then Read
      else Mint(handle, Session(caller, formId, formName, now + STARTUP_TTL_MS, None, None))
    case Sweep(handles, now) =>
      DeleteSessions(set h | h in handles && h in s.db.sessions && s.db.sessions[h].expires < now)
    case Invalidate(user) => DeleteSessions(set h | h in s.db.sessions && s.db.sessions[h].caller.user == user)
    case ConsumeUnkeyed(handle, now) => Consume(handle, None, now)
    case OtherSubmit(id, admission) => Admit(id, admission)
    case Advance(client, w) => if client in s.clients then Issue(s.clients[client], w) else Read
    case _ => Read
  }

  function ClientsAfter(s: State, e: Event): map<nat, Phase> {
    match e
    case Begin(client, sub) => if client in s.clients then s.clients else s.clients[client := Peek(sub)]
    case Advance(client, w) =>
      if client in s.clients then s.clients[client := Resume(s.db, s.clients[client], w)] else s.clients
    case Crash(client) => if client in s.clients && !Final(s.clients[client]) then s.clients - {client} else s.clients
    case _ => s.clients
  }

  /** Every UPDATE that leaves a key in the claim column of a row it changed makes that key a winner. */
  function WinnersAfter(s: State, st: Statement): set<(Handle, string)> {
    if !Changes(s.db, st) then s.winners
    else
      match Rewrite(s.db.sessions[st.handle], st).claimed
      case None => s.winners
      case Some(key) => s.winners + {(st.handle, key)}
  }

  function Step(s: State, e: Event): State {
    State(
      Apply(s.db, StatementOf(s, e)),
      ClientsAfter(s, e),
      if StatementOf(s, e).Mint? then s.owners[e.handle := e.caller] else s.owners,
      WinnersAfter(s, StatementOf(s, e)),
      if e.Advance? && e.client in s.clients && Dispatches(s.db, s.clients[e.client], e.w)
      then s.dispatched + {(s.clients[e.client].sub.handle, ExecutionIdOf(s.clients[e.client].sub))}
      else s.dispatched)
  }

  function Run(s: State, es: seq<Event>): State
    decreases |es|
  {
    if |es| == 0 then s else Run(Step(s, es[0]), es[1..])
  }

  // ----- The inductive invariant -----

  /** A stored session belongs to the principal it was minted for, and its claim is the one key that won the handle. */
  ghost predicate SessionOk(session: Session, owner: Principal, handle: Handle, winners: set<(Handle, string)>) {
    && session.caller == owner
    && (forall key :: session.claimed == Some(key) <==> (handle, key) in winners)
  }

  ghost predicate SessionsOk(s: State) {
    && (forall h :: h in s.db.sessions ==> h in s.owners && SessionOk(s.db.sessions[h], s.owners[h], h, s.winners))
    && (forall w :: w in s.winners ==> w.0 in s.owners)
  }

  ghost predicate OneWinner(winners: set<(Handle, string)>) {
    forall a, b :: a in winners && b in winners && a.0 == b.0 ==> a == b
  }

  predicate PhaseOk(s: State, phase: Phase) {
    && (phase.ReserveWrite? || Fenced(phase) ==> phase.sub.handle in s.owners && s.owners[phase.sub.handle] == phase.sub.caller)
    && (Fenced(phase) ==> (phase.sub.handle, phase.sub.key) in s.winners)
    && (AfterAdmission(phase) || phase.Answered? ==> OwnAdmission(s.db, phase.sub))
  }

  ghost predicate DispatchOk(s: State) {
    forall d :: d in s.dispatched ==>
      d.1.Top? && d.0 in s.owners && d.1.caller == s.owners[d.0] && (d.0, d.1.key) in s.winners
  }

  ghost predicate Inv(s: State) {
    && SessionsOk(s)
    && OneWinner(s.winners)
    && (forall c :: c in s.clients ==> PhaseOk(s, s.clients[c]))
    && DispatchOk(s)
  }

  /** The only key an UPDATE can leave in a claimed row is the one already there. */
  lemma ClaimIsKept(session: Session, st: Statement)
    requires st.Reserve? || st.Consume? || st.Bind?
    requires Meets(session, st)
    ensures Rewrite(session, st).caller == session.caller
    ensures session.claimed.Some? ==> Rewrite(session, st).claimed == session.claimed
  {
  }

  lemma SessionStaysOk(s: State, e: Event, h: Handle)
    requires SessionsOk(s) && h in Step(s, e).db.sessions
    ensures h in Step(s, e).owners && SessionOk(Step(s, e).db.sessions[h], Step(s, e).owners[h], h, Step(s, e).winners)
  {
    var st := StatementOf(s, e);
    if Changes(s.db, st) {
      ClaimIsKept(s.db.sessions[st.handle], st);
      assert Step(s, e).owners == s.owners;
    }
  }

  lemma WinnerStaysUnique(s: State, st: Statement)
    requires SessionsOk(s) && OneWinner(s.winners)
    ensures OneWinner(WinnersAfter(s, st))
  {
    if Changes(s.db, st) {
      ClaimIsKept(s.db.sessions[st.handle], st);
      assert SessionOk(s.db.sessions[st.handle], s.owners[st.handle], st.handle, s.winners);
    }
  }

  lemma StatementKeepsAdmission(db: Db, st: Statement, id: Id)
    requires id in db.executions
    ensures id in Apply(db, st).executions && Apply(db, st).executions[id] == db.executions[id]
  {
  }

  lemma HistoryGrows(s: State, e: Event)
    requires SessionsOk(s)
    ensures s.winners <= Step(s, e).winners
    ensures forall h :: h in s.owners ==> h in Step(s, e).owners && Step(s, e).owners[h] == s.owners[h]
  {
  }

  lemma PhaseOkMonotone(s: State, e: Event, phase: Phase)
    requires SessionsOk(s) && PhaseOk(s, phase)
    ensures PhaseOk(Step(s, e), phase)
  {
    HistoryGrows(s, e);
    if ExecutionIdOf(phase.sub) in s.db.executions {
      StatementKeepsAdmission(s.db, StatementOf(s, e), ExecutionIdOf(phase.sub));
    }
  }

  /** The state after a client's own statement supports the phase it continues in. */
  lemma AdvanceIsOk(s: State, c: nat, w: World)
    requires SessionsOk(s) && c in s.clients && PhaseOk(s, s.clients[c])
    ensures PhaseOk(Step(s, Advance(c, w)), Resume(s.db, s.clients[c], w))
  {
    var phase, s' := s.clients[c], Step(s, Advance(c, w));
    PhaseOkMonotone(s, Advance(c, w), phase);
    if phase.Submit? {
      assert s'.db == Apply(s.db, Admit(ExecutionIdOf(phase.sub), phase.sub.admission));
    }
    if phase.ReserveWrite? {
      assert s'.winners == WinnersAfter(s, Reserve(phase.sub.handle, phase.sub.key));
    }
  }

  lemma StepKeepsInv(s: State, e: Event)
    requires Inv(s)
    ensures Inv(Step(s, e))
  {
    var s' := Step(s, e);
    HistoryGrows(s, e);
    WinnerStaysUnique(s, StatementOf(s, e));
    forall h | h in s'.db.sessions ensures h in s'.owners && SessionOk(s'.db.sessions[h], s'.owners[h], h, s'.winners) {
      SessionStaysOk(s, e, h);
    }
    forall c | c in s'.clients ensures PhaseOk(s', s'.clients[c]) {
      if c in s.clients {
        PhaseOkMonotone(s, e, s.clients[c]);
        if e.Advance? && e.client == c {
          AdvanceIsOk(s, c, e.w);
        }
      }
    }
  }

  lemma {:induction false} RunKeepsInv(s: State, es: seq<Event>)
    requires Inv(s)
    ensures Inv(Run(s, es))
    decreases |es|
  {
    if |es| > 0 {
      StepKeepsInv(s, es[0]);
      RunKeepsInv(Step(s, es[0]), es[1..]);
    }
  }

  lemma ReachableInv(es: seq<Event>)
    ensures Inv(Run(INITIAL, es))
  {
    RunKeepsInv(INITIAL, es);
  }

  // ----- One key, one Execution -----

  lemma {:induction false} WinnersAreForever(s: State, es: seq<Event>)
    requires Inv(s)
    ensures s.winners <= Run(s, es).winners
    decreases |es|
  {
    if |es| > 0 {
      HistoryGrows(s, es[0]);
      StepKeepsInv(s, es[0]);
      WinnersAreForever(Step(s, es[0]), es[1..]);
    }
  }

  /** The claim is write-once over whole runs: a key that ever won a handle and a key that wins it at any later moment
    * are the same key. */
  lemma ClaimIsWriteOnce(before: seq<Event>, after: seq<Event>, handle: Handle, early: string, late: string)
    requires (handle, early) in Run(INITIAL, before).winners
    requires (handle, late) in Run(Run(INITIAL, before), after).winners
    ensures early == late
  {
    var s := Run(INITIAL, before);
    ReachableInv(before);
    WinnersAreForever(s, after);
    RunKeepsInv(s, after);
    assert (handle, early) in Run(s, after).winners;
  }

  predicate PassedFence(phase: Phase, handle: Handle) {
    Fenced(phase) && phase.sub.handle == handle
  }

  /** However many submissions race on one handle, all that pass the fence carry the same key, and everything ever
    * dispatched through the handle is one and the same Execution of the principal it was minted for. */
  lemma OneExecutionPerHandle(es: seq<Event>, handle: Handle)
    ensures var s := Run(INITIAL, es);
      && (forall c, d :: c in s.clients && d in s.clients && PassedFence(s.clients[c], handle) && PassedFence(s.clients[d], handle) ==>
            s.clients[c].sub.key == s.clients[d].sub.key && s.clients[c].sub.caller == s.clients[d].sub.caller)
      && (forall a, b :: a in s.dispatched && b in s.dispatched && a.0 == handle && b.0 == handle ==> a.1 == b.1)
  {
    ReachableInv(es);
    var s := Run(INITIAL, es);
    forall c, d | c in s.clients && d in s.clients && PassedFence(s.clients[c], handle) && PassedFence(s.clients[d], handle)
      ensures s.clients[c].sub.key == s.clients[d].sub.key && s.clients[c].sub.caller == s.clients[d].sub.caller
    {
      assert PhaseOk(s, s.clients[c]) && PhaseOk(s, s.clients[d]);
    }
    forall a, b | a in s.dispatched && b in s.dispatched && a.0 == handle && b.0 == handle ensures a.1 == b.1 {
      assert (handle, a.1.key) in s.winners && (handle, b.1.key) in s.winners;
    }
  }

  // ----- What the owning key can still do -----

  predicate ForForm(session: Session, sub: Submission) {
    session.caller == sub.caller && session.formName == sub.formName && session.formId == sub.formId
  }

  /** A submission passes the fence exactly when its unexpired session of this form still exists and either its key
    * already owns the handle or nobody does and the handle is unused. In particular the owner can always come back. */
  lemma FenceIsExact(es: seq<Event>, sub: Submission, now: int)
    ensures var s := Run(INITIAL, es);
      Live(s.db, sub, now) && Changes(s.db, Reserve(sub.handle, sub.key)) <==>
        && sub.handle in s.db.sessions
        && ForForm(s.db.sessions[sub.handle], sub) && s.db.sessions[sub.handle].expires > now
        && ((sub.handle, sub.key) in s.winners ||
            (s.db.sessions[sub.handle].used.None? && forall key :: (sub.handle, key) !in s.winners))
  {
    ReachableInv(es);
    var s := Run(INITIAL, es);
    if sub.handle in s.db.sessions {
      var session := s.db.sessions[sub.handle];
      assert SessionOk(session, s.owners[sub.handle], sub.handle, s.winners);
      assert session.claimed.Some? ==> (sub.handle, session.claimed.value) in s.winners;
    }
  }

  /** After its admission a submission loses its answer in exactly one way, whatever interleaves and however late: the
    * session row itself is gone when it comes to bind it. A spent or expired handle does not matter. */
  lemma AfterAdmissionStep(es: seq<Event>, c: nat, w: World)
    requires c in Run(INITIAL, es).clients && AfterAdmission(Run(INITIAL, es).clients[c])
    ensures var s := Run(INITIAL, es);
      var phase := s.clients[c];
      var next := Resume(s.db, phase, w);
      && (next.Stale? <==> phase.VerifyWrite? && phase.sub.handle !in s.db.sessions)
      && (next.Answered? <==>
            && phase.sub.handle in s.db.sessions
            && (phase.VerifyWrite? || (phase.ConsumeWrite? && s.db.sessions[phase.sub.handle].used.None?)))
      && (!Final(next) ==> AfterAdmission(next) && StepsLeft(next) < StepsLeft(phase))
  {
    ReachableInv(es);
    var s := Run(INITIAL, es);
    assert PhaseOk(s, s.clients[c]);
    if s.clients[c].sub.handle in s.db.sessions {
      var session := s.db.sessions[s.clients[c].sub.handle];
      assert SessionOk(session, s.owners[s.clients[c].sub.handle], s.clients[c].sub.handle, s.winners);
      assert session.claimed == Some(s.clients[c].sub.key);
    }
  }

  function StepsLeft(phase: Phase): nat {
    match phase
    case ConsumePeek(_) => 4
    case ConsumeWrite(_) => 3
    case VerifyRead(_) => 2
    case VerifyWrite(_) => 1
    case _ => 0
  }

  // ----- Deleted sessions -----

  lemma {:induction false} GoneStaysGone(s: State, es: seq<Event>, handle: Handle)
    requires handle in s.owners && handle !in s.db.sessions
    ensures handle in Run(s, es).owners && handle !in Run(s, es).db.sessions
    decreases |es|
  {
    if |es| > 0 {
      GoneStaysGone(Step(s, es[0]), es[1..], handle);
    }
  }

  /** After a rotation or review deletes a principal's sessions, no handle minted for that principal before it is ever
    * live, reserved, consumed or bound again. */
  lemma InvalidatedStaysStale(before: seq<Event>, after: seq<Event>, user: string, sub: Submission, now: int)
    requires sub.handle in Run(INITIAL, before).owners && Run(INITIAL, before).owners[sub.handle].user == user
    ensures var s := Run(Step(Run(INITIAL, before), Invalidate(user)), after);
      && !Live(s.db, sub, now)
      && !Changes(s.db, Reserve(sub.handle, sub.key))
      && !Changes(s.db, Consume(sub.handle, Some(sub.key), now))
      && !Changes(s.db, Bind(sub.handle, sub.key))
  {
    ReachableInv(before);
    var s := Run(INITIAL, before);
    assert sub.handle in s.db.sessions ==> SessionOk(s.db.sessions[sub.handle], s.owners[sub.handle], sub.handle, s.winners);
    GoneStaysGone(Step(s, Invalidate(user)), after, sub.handle);
  }

  // ----- The steps outside a submission, row by row -----

  /** A new session lasts thirty minutes, unused and unclaimed; a handle drawn before changes nothing. */
  lemma StartExactly(s: State, handle: Handle, caller: Principal, formId: string, formName: string, now: int)
    requires handle !in s.owners && handle !in s.db.sessions
    ensures var s' := Step(s, StartForm(handle, caller, formId, formName, now));
      && s'.db == s.db.(sessions := s.db.sessions[handle := Session(caller, formId, formName, now + 1800000, None, None)])
      && s'.owners == s.owners[handle := caller] && s'.clients == s.clients
  {
  }

  /** A sweep removes expired sessions only, an invalidation exactly the principal's; both leave the Executions. */
  lemma DeletesExactly(s: State, handles: set<Handle>, now: int, user: string)
    ensures var s' := Step(s, Sweep(handles, now));
      && s'.db.executions == s.db.executions
      && (forall h :: h in s'.db.sessions <==> h in s.db.sessions && !(h in handles && s.db.sessions[h].expires < now))
      && (forall h :: h in s'.db.sessions ==> s'.db.sessions[h] == s.db.sessions[h])
    ensures var s' := Step(s, Invalidate(user));
      && s'.db.executions == s.db.executions
      && (forall h :: h in s'.db.sessions <==> h in s.db.sessions && s.db.sessions[h].caller.user != user)
      && (forall h :: h in s'.db.sessions ==> s'.db.sessions[h] == s.db.sessions[h])
  {
  }

  /** A submission begins at its peek under a free number, and a crash ends one that has no answer yet. */
  lemma ComesAndGoes(s: State, client: nat, sub: Submission)
    ensures client !in s.clients ==> Step(s, Begin(client, sub)) == s.(clients := s.clients[client := Peek(sub)])
    ensures client in s.clients && !s.clients[client].Answered? && !s.clients[client].Stale? && !s.clients[client].Rejected? ==>
      Step(s, Crash(client)) == s.(clients := s.clients - {client})
    ensures client in s.clients && (s.clients[client].Answered? || s.clients[client].Stale? || s.clients[client].Rejected?) ==>
      Step(s, Crash(client)) == s
  {
  }

  // ----- An answer means a dispatch -----

  ghost predicate AdmittedAreDispatched(s: State) {
    forall c :: c in s.clients && (AfterAdmission(s.clients[c]) || s.clients[c].Answered?) ==>
      (s.clients[c].sub.handle, Top(s.clients[c].sub.caller, s.clients[c].sub.key)) in s.dispatched
  }

  lemma StepKeepsDispatched(s: State, e: Event)
    requires AdmittedAreDispatched(s)
    ensures AdmittedAreDispatched(Step(s, e))
  {
    var s' := Step(s, e);
    forall c | c in s'.clients && (AfterAdmission(s'.clients[c]) || s'.clients[c].Answered?)
      ensures (s'.clients[c].sub.handle, Top(s'.clients[c].sub.caller, s'.clients[c].sub.key)) in s'.dispatched
    {
      assert c in s.clients;
    }
  }

  /** Every answered submission dispatched its Execution through its handle. */
  lemma {:induction false} AnsweredIsDispatched(s: State, es: seq<Event>)
    requires AdmittedAreDispatched(s)
    ensures AdmittedAreDispatched(Run(s, es))
    decreases |es|
  {
    if |es| > 0 {
      StepKeepsDispatched(s, es[0]);
      AnsweredIsDispatched(Step(s, es[0]), es[1..]);
    }
  }

  // ----- One submission left alone -----

  function Remaining(phase: Phase): nat {
    match phase
    case Peek(_) => 9
    case Validate(_) => 8
    case ReservePeek(_) => 7
    case ReserveWrite(_) => 6
    case Submit(_) => 5
    case _ => StepsLeft(phase)
  }

  /** The tables and the answer once a client ran to its end undisturbed. */
  function Alone(db: Db, phase: Phase, w: World): (Db, Phase)
    decreases Remaining(phase)
  {
    if Final(phase) then (db, phase) else Alone(Apply(db, Issue(phase, w)), Resume(db, phase, w), w)
  }

  lemma AloneStep(db: Db, phase: Phase, w: World)
    requires !Final(phase)
    ensures Alone(db, phase, w) == Alone(Apply(db, Issue(phase, w)), Resume(db, phase, w), w)
  {
  }

  /** A session this caller, form and key can use at this time. */
  ghost predicate Usable(db: Db, sub: Submission, now: int) {
    && sub.handle in db.sessions
    && var row := db.sessions[sub.handle];
       && row.caller == sub.caller && row.formId == sub.formId && row.formName == sub.formName && now < row.expires
       && (row.used.Some? && row.claimed.Some? ==> row.claimed == Some(sub.key))
  }

  /** Somebody else owns the handle, or it was spent before anybody claimed it. */
  ghost predicate Taken(row: Session, key: string) {
    (row.claimed.Some? && row.claimed != Some(key)) || (row.used.Some? && row.claimed.None?)
  }

  /** The submit route, answered from the rows it finds. */
  ghost function SubmitAnswer(db: Db, sub: Submission, w: World): Phase {
    var id := Top(sub.caller, sub.key);
    if !Usable(db, sub, w.now) then Stale(sub)
    else if !w.valid then Rejected(sub, "FORM_VALIDATION_FAILED")
    else if Taken(db.sessions[sub.handle], sub.key) then Stale(sub)
    else if id in db.executions && db.executions[id] != sub.admission then Rejected(sub, "IDEMPOTENCY_CONFLICT")
    else if w.submit == Acknowledged then Answered(sub)
    else if w.submit == Unconfirmed then Rejected(sub, "DISPATCH_UNCONFIRMED")
    else Rejected(sub, "SUBMIT_HELD")
  }

  /** A refusal before the fence changes nothing. Past it the key owns the handle, and unless it names other work its row is
    * on record; an answer spends the handle, the first use kept. */
  ghost predicate SubmitLeaves(db: Db, sub: Submission, now: int, answer: Phase, db': Db) {
    var id := Top(sub.caller, sub.key);
    if answer.Stale? || answer == Rejected(sub, "FORM_VALIDATION_FAILED") then db' == db
    else
      && sub.handle in db.sessions
      && var row := db.sessions[sub.handle];
         && db'.sessions == db.sessions[sub.handle := row.(claimed := Some(sub.key),
              used := if answer.Answered? && row.used.None? then Some(now) else row.used)]
         && db'.executions == if answer == Rejected(sub, "IDEMPOTENCY_CONFLICT") then db.executions else db.executions[id := sub.admission]
  }

  /** What a whole undisturbed submission comes to. */
  lemma SubmitTable(db: Db, sub: Submission, w: World)
    ensures var (db', answer) := Alone(db, Peek(sub), w);
      answer == SubmitAnswer(db, sub, w) && SubmitLeaves(db, sub, w.now, answer, db')
  {
    AloneStep(db, Peek(sub), w);
    if Live(db, sub, w.now) {
      AloneStep(db, Validate(sub), w);
      if w.valid {
        AloneStep(db, ReservePeek(sub), w);
        AloneStep(db, ReserveWrite(sub), w);
        if !Taken(db.sessions[sub.handle], sub.key) {
          FencedTable(db, Apply(db, Reserve(sub.handle, sub.key)), sub, w);
        }
      }
    }
  }

  lemma FencedTable(db: Db, reserved: Db, sub: Submission, w: World)
    requires Usable(db, sub, w.now) && w.valid && !Taken(db.sessions[sub.handle], sub.key)
    requires reserved == db.(sessions := db.sessions[sub.handle := db.sessions[sub.handle].(claimed := Some(sub.key))])
    ensures var (db', answer) := Alone(reserved, Submit(sub), w);
      answer == SubmitAnswer(db, sub, w) && SubmitLeaves(db, sub, w.now, answer, db')
  {
    var id := Top(sub.caller, sub.key);
    AloneStep(reserved, Submit(sub), w);
    if !(id in db.executions && db.executions[id] != sub.admission) {
      var admitted := reserved.(executions := reserved.executions[id := sub.admission]);
      assert Apply(reserved, Admit(id, sub.admission)) == admitted;
      if w.submit == Acknowledged {
        ConsumedTable(admitted, sub, w);
        assert admitted.sessions[sub.handle := admitted.sessions[sub.handle].(used := Some(w.now))] ==
               db.sessions[sub.handle := db.sessions[sub.handle].(claimed := Some(sub.key), used := Some(w.now))];
      }
    }
  }

  lemma ConsumedTable(db: Db, sub: Submission, w: World)
    requires Usable(db, sub, w.now) && db.sessions[sub.handle].claimed == Some(sub.key)
    requires Top(sub.caller, sub.key) in db.executions && db.executions[Top(sub.caller, sub.key)] == sub.admission
    ensures Alone(db, ConsumePeek(sub), w) ==
      (if db.sessions[sub.handle].used.Some? then db
       else db.(sessions := db.sessions[sub.handle := db.sessions[sub.handle].(used := Some(w.now))]), Answered(sub))
  {
    var row := db.sessions[sub.handle];
    AloneStep(db, ConsumePeek(sub), w);
    AloneStep(db, ConsumeWrite(sub), w);
    if row.used.Some? {
      assert Apply(db, Consume(sub.handle, Some(sub.key), w.now)) == db;
      AloneStep(db, VerifyRead(sub), w);
      AloneStep(db, VerifyWrite(sub), w);
      assert row.(claimed := Some(sub.key)) == row && db.sessions[sub.handle := row] == db.sessions;
    } else {
      assert row.(used := Some(w.now), claimed := Some(sub.key)) == row.(used := Some(w.now));
    }
  }

  // ----- The form store -----

  /** The session functions as the repository writes them, one call undisturbed at a time. */
  class FormStore {
    var sessions: map<Handle, Session>
    var executions: map<Id, Admission>

    ghost function Tables(): Db
      reads this
    {
      Db(sessions, executions)
    }

    constructor ()
      ensures Tables() == INITIAL.db
    {
      sessions := map[];
      executions := map[];
    }

    method StartForm(handle: Handle, caller: Principal, formId: string, formName: string, now: int)
      requires handle !in sessions
      modifies this`sessions
      ensures sessions == old(sessions)[handle := Session(caller, formId, formName, now + 1800000, None, None)]
    {
      sessions := sessions[handle := Session(caller, formId, formName, now + STARTUP_TTL_MS, None, None)];
    }

    /** A claim by another key that has not been consumed yet still peeks live; only the fence refuses it. */
    method PeekStartupHandle(sub: Submission, now: int) returns (live: bool)
      ensures live == Live(Tables(), sub, now)
      ensures live <==> Usable(Tables(), sub, now)
    {
      if sub.handle !in sessions {
        return false;
      }
      var row := sessions[sub.handle];
      live := row.caller == sub.caller && row.formName == sub.formName && row.formId == sub.formId
           && !(row.used.Some? && row.claimed.Some? && row.claimed != Some(sub.key))
           && row.expires > now;
    }

    method ReserveStartupHandle(sub: Submission, now: int) returns (reserved: bool)
      modifies this`sessions
      ensures reserved <==> Live(old(Tables()), sub, now) && old(sessions)[sub.handle].claimed in {None, Some(sub.key)}
                            && (old(sessions)[sub.handle].used.Some? ==> old(sessions)[sub.handle].claimed.Some?)
      ensures Tables() == if Live(old(Tables()), sub, now) then Apply(old(Tables()), Reserve(sub.handle, sub.key)) else old(Tables())
      ensures reserved ==> sessions == old(sessions)[sub.handle := old(sessions)[sub.handle].(claimed := Some(sub.key))]
      ensures !reserved ==> sessions == old(sessions)
    {
      var live := PeekStartupHandle(sub, now);
      if !live {
        return false;
      }
      var row := sessions[sub.handle];
      reserved := (row.used.None? || row.claimed == Some(sub.key)) && (row.claimed.None? || row.claimed == Some(sub.key));
      if reserved {
        sessions := sessions[sub.handle := row.(claimed := Some(sub.key))];
      }
    }

    method ConsumeStartupHandle(sub: Submission, now: int) returns (consumed: bool)
      modifies this`sessions
      ensures consumed <==> Live(old(Tables()), sub, now) && old(sessions)[sub.handle].used.None?
                            && old(sessions)[sub.handle].claimed in {None, Some(sub.key)}
      ensures sessions == if consumed then old(sessions)[sub.handle := old(sessions)[sub.handle].(used := Some(now), claimed := Some(sub.key))]
                          else old(sessions)
    {
      var live := PeekStartupHandle(sub, now);
      if !live {
        return false;
      }
      var row := sessions[sub.handle];
      consumed := row.used.None? && (row.claimed.None? || row.claimed == Some(sub.key));
      if consumed {
        sessions := sessions[sub.handle := row.(used := Some(now), claimed := Some(sub.key))];
      }
    }

    method VerifyOwnAdmission(sub: Submission) returns (own: bool)
      modifies this`sessions
      ensures own <==> OwnAdmission(old(Tables()), sub) && sub.handle in old(sessions)
                       && old(sessions)[sub.handle].claimed in {None, Some(sub.key)}
      ensures sessions == if own then old(sessions)[sub.handle := old(sessions)[sub.handle].(claimed := Some(sub.key))] else old(sessions)
    {
      var id := ExecutionIdOf(sub);
      if id !in executions || executions[id].saga != sub.admission.saga || executions[id].input != sub.admission.input {
        return false;
      }
      own := sub.handle in sessions && (sessions[sub.handle].claimed == Some(sub.key) || sessions[sub.handle].claimed.None?);
      if own {
        sessions := sessions[sub.handle := sessions[sub.handle].(claimed := Some(sub.key))];
      }
    }

    /** Spend the handle, or prove the spent handle is this submission's own: a foreign key never gets through, and the
      * first use is never overwritten. */
    method ConsumeAfterAdmission(sub: Submission, now: int) returns (answered: bool)
      modifies this`sessions
      ensures var first := Live(old(Tables()), sub, now) && old(sessions)[sub.handle].used.None?;
        && (answered <==>
              && sub.handle in old(sessions) && old(sessions)[sub.handle].claimed in {None, Some(sub.key)}
              && (first || OwnAdmission(old(Tables()), sub)))
        && sessions == (if answered
             then old(sessions)[sub.handle := old(sessions)[sub.handle].(claimed := Some(sub.key),
                    used := if first then Some(now) else old(sessions)[sub.handle].used)]
             else old(sessions))
    {
      answered := ConsumeStartupHandle(sub, now);
      if !answered {
        answered := VerifyOwnAdmission(sub);
      }
    }

    /** The submit route from peek to answer. Undisturbed, it succeeds exactly when the handle is live for this form,
      * unclaimed or claimed by this very key, the form validates, the key names no different input and the dispatch is
      * acknowledged; and then the handle is spent by this key and the admission is on record. A scheduled submission,
      * whose input carries the form and the due instant, only records its row: it needs no dispatch. */
    method SubmitForm(sub: Submission, scheduled: bool, w: World) returns (answered: bool)
      modifies this
      ensures var asked := w.(submit := if scheduled then Acknowledged else w.submit);
        && (answered <==> SubmitAnswer(old(Tables()), sub, asked) == Answered(sub))
        && SubmitLeaves(old(Tables()), sub, w.now, SubmitAnswer(old(Tables()), sub, asked), Tables())
        && Tables() == Alone(old(Tables()), Peek(sub), asked).0 && (answered <==> Alone(old(Tables()), Peek(sub), asked).1.Answered?)
      ensures answered <==>
        && Live(old(Tables()), sub, w.now) && w.valid && (scheduled || w.submit == Acknowledged)
        && old(sessions)[sub.handle].claimed in {None, Some(sub.key)}
        && (old(sessions)[sub.handle].used.Some? ==> old(sessions)[sub.handle].claimed.Some?)
        && (ExecutionIdOf(sub) !in old(executions) || OwnAdmission(old(Tables()), sub))
      ensures answered ==>
        && OwnAdmission(Tables(), sub)
        && sub.handle in sessions && sessions[sub.handle].claimed == Some(sub.key) && sessions[sub.handle].used.Some?
      ensures forall h :: h != sub.handle ==> (h in sessions <==> h in old(sessions)) && (h in sessions ==> sessions[h] == old(sessions)[h])
      ensures !w.valid ==> Tables() == old(Tables())
    {
      SubmitTable(Tables(), sub, w.(submit := if scheduled then Acknowledged else w.submit));
      var live := PeekStartupHandle(sub, w.now);
      if !live || !w.valid {
        return false;
      }
      var reserved := ReserveStartupHandle(sub, w.now);
      if !reserved {
        return false;
      }
      var id := ExecutionIdOf(sub);
      if id in executions && executions[id] != sub.admission {
        return false;
      }
      executions := executions[id := sub.admission];
      if !scheduled && w.submit != Acknowledged {
        return false;
      }
      answered := ConsumeAfterAdmission(sub, w.now);
    }
  }

}
