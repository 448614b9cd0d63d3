/** Upload capabilities: issued under a write policy, consumed once, and cut off when the policy is revoked. Issuers,
  * consumers and revokers interleave; every SQL statement is one atomic step. */
module UploadTokens {

  import opened Wrappers
  import opened Sets

  datatype Place = Place(org: string, location: string)

  datatype PolicyAction = ReadFiles | WriteFiles | DeleteFiles

  datatype CapAction = Upload | Download

  /** Tokens and row ids are random; the model never mints one twice. */
  type Token = nat

  datatype Cap = Cap(place: Place, path: string, action: CapAction, expires: int, used: bool)

  datatype Db = Db(policies: set<(Place, PolicyAction)>, caps: map<Token, Cap>)

  function CapActionOf(action: PolicyAction): Option<CapAction> {
    match action
    case ReadFiles => Some(Download)
    case WriteFiles => Some(Upload)
    case DeleteFiles => None
  }

  // ----- Statements -----

  datatype Statement =
    | Read
    | InsertPolicy(place: Place, action: PolicyAction)
    | DeletePolicy(place: Place, action: PolicyAction)
    | DeletePolicies(place: Place)
    | InsertCap(token: Token, cap: Cap)
    | DeleteCaps(place: Place, actions: set<CapAction>)
    | UseCap(token: Token)

  predicate Changes(db: Db, st: Statement) {
    match st
    case DeletePolicy(place, action) => (place, action) in db.policies
    case UseCap(token) => token in db.caps && !db.caps[token].used
    case _ => true
  }

  function Apply(db: Db, st: Statement): Db {
    match st
    case Read => db
    case InsertPolicy(place, action) => db.(policies := db.policies + {(place, action)})
    case DeletePolicy(place, action) => db.(policies := db.policies - {(place, action)})
    case DeletePolicies(place) => db.(policies := set p | p in db.policies && p.0 != place)
    case InsertCap(token, cap) => if token in db.caps then db else db.(caps := db.caps[token := cap])
    case DeleteCaps(place, actions) =>
      db.(caps := map t | t in db.caps && !(db.caps[t].place == place && db.caps[t].action in actions) :: db.caps[t])
    case UseCap(token) => if Changes(db, st) then db.(caps := db.caps[token := db.caps[token].(used := true)]) else db
  }

  // ----- Clients -----

  datatype Phase =
    | IssueCheck(place: Place, path: string, expiresIn: nat)
    | IssueInsert(place: Place, path: string, token: Token, expires: int)
    | Issued(token: Token)
    | ConsumeLoad(token: Token)
    | ConsumePolicy(token: Token, cap: Cap)
    | ConsumeWrite(token: Token, cap: Cap)
    | Consumed(token: Token, cap: Cap)
    | RevokeCaps(place: Place, action: PolicyAction)
    | RevokePolicy(place: Place, action: PolicyAction)
    | DropCaps(place: Place)
    | DropPolicies(place: Place)
    | Done
    | Refused(code: string)

  predicate Final(phase: Phase) {
    phase.Issued? || phase.Consumed? || phase.Done? || phase.Refused?
  }

  /** `gate` is every other check a step makes: ceilings, location lookups, the pre-consumption gate. `token` is what a
    * step that draws one gets. */
  datatype World = World(now: int, gate: bool, token: Token)

  function Issue(phase: Phase): Statement {
    match phase
    case IssueInsert(place, path, token, expires) => InsertCap(token, Cap(place, path, Upload, expires, false))
    case ConsumeWrite(token, _) => UseCap(token)
    case RevokeCaps(place, action) =>
      (match CapActionOf(action)
       case None => Read
       case Some(cap) => DeleteCaps(place, {cap}))
    case RevokePolicy(place, action) => DeletePolicy(place, action)
    case DropCaps(place) => DeleteCaps(place, {Upload, Download})
    case DropPolicies(place) => DeletePolicies(place)
    case _ => Read
  }

  predicate Allowed(db: Db, place: Place, w: World) {
    w.gate && (place, WriteFiles) in db.policies
  }

  function Resume(db: Db, phase: Phase, w: World): Phase {
    match phase
    case IssueCheck(place, path, expiresIn) =>
      if Allowed(db, place, w) then IssueInsert(place, path, w.token, w.now + expiresIn * 1000) else Refused("FORBIDDEN")
    case IssueInsert(_, _, token, _) => Issued(token)
    case ConsumeLoad(token) =>
      if token !in db.caps || db.caps[token].action != Upload then Refused("UNAUTHORIZED")
      else if db.caps[token].expires <= w.now || db.caps[token].used then Refused("UNAUTHORIZED")
      else ConsumePolicy(token, db.caps[token])
    case ConsumePolicy(token, cap) =>
      if Allowed(db, cap.place, w) then ConsumeWrite(token, cap) else Refused("FORBIDDEN")
    case ConsumeWrite(token, cap) => if Changes(db, UseCap(token)) then Consumed(token, cap) else Refused("UNAUTHORIZED")
    case RevokeCaps(place, action) => RevokePolicy(place, action)
    case RevokePolicy(place, action) => if Changes(db, DeletePolicy(place, action)) then Done else Refused("NOT_FOUND")
    case DropCaps(place) => DropPolicies(place)
    case DropPolicies(_) => Done
    case _ => phase
  }

  // ----- The system -----

  /** `drawn` is every token ever drawn and what for, `spent` every successful consumption in order; no client reads
    * either. */
  datatype State = State(db: Db, clients: map<nat, Phase>, drawn: map<Token, (Place, CapAction)>, spent: seq<Token>)

  datatype Event =
    | Grant(place: Place, action: PolicyAction)
    | IssueDownload(token: Token, place: Place, path: string, expires: int)
    | Begin(client: nat, phase: Phase)
    | Advance(client: nat, w: World)
    | Crash(client: nat)

  const INITIAL := State(Db({}, map[]), map[], map[], [])

  /** A request starts at its first statement. */
  predicate MayBegin(phase: Phase) {
    phase.IssueCheck? || phase.ConsumeLoad? || phase.RevokeCaps? || phase.DropCaps?
  }

  /** An issuer that passes its check draws its token. */
  predicate Draws(s: State, client: nat, w: World) {
    client in s.clients && s.clients[client].IssueCheck? && Allowed(s.db, s.clients[client].place, w)
  }

  function StatementOf(s: State, e: Event): Statement {
    match e
    case Grant(place, action) => InsertPolicy(place, action)
    case IssueDownload(token, place, path, expires) =>
      if token in s.drawn then Read else InsertCap(token, Cap(place, path, Download, expires, false))
    case Advance(client, _) => if client in s.clients then Issue(s.clients[client]) else Read
    case _ => Read
  }

  /** Nobody draws a token a second time: such a step does not happen. */
  function ClientsAfter(s: State, e: Event): map<nat, Phase> {
    match e
    case Begin(client, phase) => if client !in s.clients && MayBegin(phase) then s.clients[client := phase] else s.clients
    case Advance(client, w) =>
      if client !in s.clients || (Draws(s, client, w) && w.token in s.drawn) then s.clients
      else s.clients[client := Resume(s.db, s.clients[client], w)]
    case Crash(client) => if client in s.clients && !Final(s.clients[client]) then s.clients - {client} else s.clients
    case _ => s.clients
  }

  function DrawnAfter(s: State, e: Event): map<Token, (Place, CapAction)> {
    match e
    case Advance(client, w) =>
      if Draws(s, client, w) && w.token !in s.drawn then s.drawn[w.token := (s.clients[client].place, Upload)] else s.drawn
    case IssueDownload(token, place, _, _) => if token in s.drawn then s.drawn else s.drawn[token := (place, Download)]
    case _ => s.drawn
  }

  predicate Consumes(s: State, e: Event) {
    e.Advance? && e.client in s.clients && s.clients[e.client].ConsumeWrite? && Changes(s.db, Issue(s.clients[e.client]))
  }

  function Step(s: State, e: Event): State {
    State(
      Apply(s.db, StatementOf(s, e)),
      ClientsAfter(s, e),
      DrawnAfter(s, e),
      if Consumes(s, e) then s.spent + [s.clients[e.client].token] else s.spent)
  }

  function Run(s: State, es: seq<Event>): State
    decreases |es|
  {
    if |es| == 0 then s else Run(Step(s, es[0]), es[1..])
  }

  // ----- Single use -----

  /** An issuer between its draw and its row. */
  predicate Pending(phase: Phase) {
    phase.IssueInsert?
  }

  predicate Loaded(phase: Phase) {
    phase.ConsumePolicy? || phase.ConsumeWrite?
  }

  /** A drawn token sits in at most one place: with its issuer, or in its row. */
  ghost predicate PendingOk(s: State) {
    && (forall c :: c in s.clients && Pending(s.clients[c]) ==>
          var t := s.clients[c].token;
          t in s.drawn && s.drawn[t] == (s.clients[c].place, Upload) && t !in s.db.caps && t !in s.spent)
    && (forall c, d :: c in s.clients && d in s.clients && Pending(s.clients[c]) && Pending(s.clients[d]) ==>
          (s.clients[c].token == s.clients[d].token ==> c == d))
  }

  /** A row is what its token was drawn for, and used exactly if its token is spent; no token is spent twice. */
  ghost predicate SpentOk(s: State) {
    && (forall t :: t in s.db.caps ==>
          t in s.drawn && s.drawn[t] == (s.db.caps[t].place, s.db.caps[t].action) && (s.db.caps[t].used <==> t in s.spent))
    && (forall t :: t in s.spent ==> t in s.drawn)
    && (forall i, j :: 0 <= i < j < |s.spent| ==> s.spent[i] != s.spent[j])
  }

  /** Whoever loaded a token found an upload row under it. */
  ghost predicate LoadedOk(s: State) {
    forall c :: c in s.clients && Loaded(s.clients[c]) ==>
      var t := s.clients[c].token; t in s.drawn && s.drawn[t].1 == Upload
  }

  ghost predicate Inv(s: State) {
    PendingOk(s) && SpentOk(s) && LoadedOk(s)
  }

  lemma DrawnStays(s: State, e: Event)
    ensures forall t :: t in s.drawn ==> t in Step(s, e).drawn && Step(s, e).drawn[t] == s.drawn[t]
  {
  }

  lemma RowOrigin(s: State, e: Event, t: Token)
    requires t in Step(s, e).db.caps
    ensures if t in s.db.caps then Step(s, e).db.caps[t] == s.db.caps[t].(used := Step(s, e).db.caps[t].used)
            else StatementOf(s, e) == InsertCap(t, Step(s, e).db.caps[t]) && !Step(s, e).db.caps[t].used
  {
  }

  lemma PendingOrigin(s: State, e: Event, c: nat)
    requires c in Step(s, e).clients && Pending(Step(s, e).clients[c])
    ensures c in s.clients
    ensures var t := Step(s, e).clients[c].token;
      || (s.clients[c] == Step(s, e).clients[c] && !(e.Advance? && e.client == c))
      || (e.Advance? && e.client == c && t !in s.drawn && t in Step(s, e).drawn && Step(s, e).drawn[t] == (Step(s, e).clients[c].place, Upload)
          && StatementOf(s, e) == Read)
  {
  }

  lemma StepKeepsPending(s: State, e: Event)
    requires Inv(s)
    ensures PendingOk(Step(s, e))
  {
    var s' := Step(s, e);
    DrawnStays(s, e);
    forall c | c in s'.clients && Pending(s'.clients[c])
      ensures var t := s'.clients[c].token;
        t in s'.drawn && s'.drawn[t] == (s'.clients[c].place, Upload) && t !in s'.db.caps && t !in s'.spent
    {
      var t := s'.clients[c].token;
      PendingOrigin(s, e, c);
      if t in s'.db.caps {
        RowOrigin(s, e, t);
      }
    }
    forall c, d | c in s'.clients && d in s'.clients && Pending(s'.clients[c]) && Pending(s'.clients[d]) && s'.clients[c].token == s'.clients[d].token
      ensures c == d
    {
      PendingOrigin(s, e, c);
      PendingOrigin(s, e, d);
    }
  }

  lemma StepKeepsRows(s: State, e: Event, t: Token)
    requires Inv(s) && t in Step(s, e).db.caps
    ensures var s' := Step(s, e);
      t in s'.drawn && s'.drawn[t] == (s'.db.caps[t].place, s'.db.caps[t].action) && (s'.db.caps[t].used <==> t in s'.spent)
  {
    DrawnStays(s, e);
    RowOrigin(s, e, t);
  }

  lemma StepKeepsSpent(s: State, e: Event)
    requires Inv(s)
    ensures SpentOk(Step(s, e))
  {
    var s' := Step(s, e);
    DrawnStays(s, e);
    forall t | t in s'.db.caps
      ensures t in s'.drawn && s'.drawn[t] == (s'.db.caps[t].place, s'.db.caps[t].action) && (s'.db.caps[t].used <==> t in s'.spent)
    {
      StepKeepsRows(s, e, t);
    }
  }

  lemma StepKeepsLoaded(s: State, e: Event)
    requires Inv(s)
    ensures LoadedOk(Step(s, e))
  {
    var s' := Step(s, e);
    DrawnStays(s, e);
    forall c | c in s'.clients && Loaded(s'.clients[c]) ensures s'.clients[c].token in s.drawn && s.drawn[s'.clients[c].token].1 == Upload {
      assert c in s.clients;
    }
  }

  lemma StepKeepsInv(s: State, e: Event)
    requires Inv(s)
    ensures Inv(Step(s, e))
  {
    StepKeepsLoaded(s, e);
    StepKeepsPending(s, e);
    StepKeepsSpent(s, e);
  }

  lemma {:induction false} RunKeepsInv(s: State, es: seq<Event>)
    requires Inv(s)
    ensures Inv(Run(s, es))
    decreases |es|
  {
    if |es| > 0 {
      StepKeepsInv(s, es[0]);
      RunKeepsInv(Step(s, es[0]), es[1..]);
    }
  }

  /** No token is consumed twice, whatever interleaves. */
  lemma EachTokenIsConsumedOnce(es: seq<Event>)
    ensures var s := Run(INITIAL, es); forall i, j :: 0 <= i < j < |s.spent| ==> s.spent[i] != s.spent[j]
  {
    RunKeepsInv(INITIAL, es);
  }

  /** A consumption succeeds exactly when the row is still there and unused at the UPDATE; the policy is only looked at
    * before it. */
  lemma ConsumptionIsExact(s: State, c: nat, w: World)
    requires c in s.clients && s.clients[c].ConsumeWrite?
    ensures var t, s' := s.clients[c].token, Step(s, Advance(c, w));
      && (s'.clients[c].Consumed? <==> t in s.db.caps && !s.db.caps[t].used)
      && (s'.clients[c].Consumed? ==> s'.spent == s.spent + [t] && t in s'.db.caps && s'.db.caps[t].used)
      && (!s'.clients[c].Consumed? ==> s'.spent == s.spent && s'.db == s.db)
  {
  }

  // ----- Which tokens can still be consumed -----

  /** Some issuer of token `t` has not written its row yet. */
  ghost predicate IssuerHolds(s: State, t: Token) {
    exists c :: c in s.clients && Pending(s.clients[c]) && s.clients[c].token == t
  }

  predicate UsableRow(s: State, t: Token) {
    t in s.db.caps && s.db.caps[t].action == Upload && !s.db.caps[t].used
  }

  /** A drawn token that is neither with an issuer nor in an unused upload row stays that way and is not consumed. */
  lemma UselessStaysUseless(s: State, e: Event, t: Token)
    requires Inv(s) && t in s.drawn && !UsableRow(s, t) && !IssuerHolds(s, t)
    ensures var s' := Step(s, e);
      t in s'.drawn && !UsableRow(s', t) && !IssuerHolds(s', t) && (t in s'.spent <==> t in s.spent)
  {
    var s' := Step(s, e);
    DrawnStays(s, e);
    forall c | c in s'.clients && Pending(s'.clients[c]) ensures s'.clients[c].token != t {
      PendingOrigin(s, e, c);
    }
    if t in s'.db.caps {
      RowOrigin(s, e, t);
    }
    assert Consumes(s, e) ==> UsableRow(s, s.clients[e.client].token);
  }

  lemma {:induction false} UselessIsNeverConsumed(s: State, es: seq<Event>, t: Token)
    requires Inv(s) && t in s.drawn && !UsableRow(s, t) && !IssuerHolds(s, t)
    ensures var s' := Run(s, es);
      t in s'.drawn && !UsableRow(s', t) && !IssuerHolds(s', t) && (t in s'.spent <==> t in s.spent)
    decreases |es|
  {
    if |es| > 0 {
      UselessStaysUseless(s, es[0], t);
      StepKeepsInv(s, es[0]);
      UselessIsNeverConsumed(Step(s, es[0]), es[1..], t);
    }
  }

  /** A grant and one consumer, undisturbed, before the row expires. */
  lemma FromRow(s: State, t: Token) returns (es: seq<Event>)
    requires UsableRow(s, t)
    ensures t in Run(s, es).spent
  {
    var d, cap := Above(s.clients.Keys), s.db.caps[t];
    var w := World(cap.expires - 1, true, 0);
    var s1 := Step(s, Grant(cap.place, WriteFiles));
    var s2 := Step(s1, Begin(d, ConsumeLoad(t)));
    assert s2.clients[d] == ConsumeLoad(t) && s2.db.caps == s.db.caps && (cap.place, WriteFiles) in s2.db.policies;
    var s3 := Step(s2, Advance(d, w));
    assert s3.clients[d] == ConsumePolicy(t, cap) && s3.db == s2.db;
    var s4 := Step(s3, Advance(d, w));
    assert s4.clients[d] == ConsumeWrite(t, cap) && s4.db == s2.db;
    var s5 := Step(s4, Advance(d, w));
    assert t in s5.spent;
    es := [Grant(cap.place, WriteFiles), Begin(d, ConsumeLoad(t)), Advance(d, w), Advance(d, w), Advance(d, w)];
    RunsFive(s, es);
  }

  lemma RunsFive(s: State, es: seq<Event>)
    requires |es| == 5
    ensures Run(s, es) == Step(Step(Step(Step(Step(s, es[0]), es[1]), es[2]), es[3]), es[4])
  {
    Prepended(s, es);
    Prepended(Step(s, es[0]), es[1..]);
    Prepended(Step(Step(s, es[0]), es[1]), es[1..][1..]);
    Prepended(Step(Step(Step(s, es[0]), es[1]), es[2]), es[1..][1..][1..]);
    Prepended(Step(Step(Step(Step(s, es[0]), es[1]), es[2]), es[3]), es[1..][1..][1..][1..]);
  }

  lemma Prepended(s: State, es: seq<Event>)
    requires |es| > 0
    ensures Run(s, es) == Run(Step(s, es[0]), es[1..])
    ensures |es| == 1 ==> Run(s, es) == Step(s, es[0])
  {
  }

  /** The issuer writes its row. */
  lemma FromIssuer(s: State, c: nat, t: Token) returns (es: seq<Event>)
    requires Inv(s) && c in s.clients && Pending(s.clients[c]) && s.clients[c].token == t
    ensures t in Run(s, es).spent
  {
    var e := Advance(c, World(0, true, 0));
    assert t !in s.db.caps;
    var tail := FromRow(Step(s, e), t);
    es := [e] + tail;
    Prepended(s, es);
    assert es[1..] == tail;
  }

  /** A new issuer, let through, up to its draw. */
  lemma Drawing(s: State, place: Place, t: Token) returns (d: nat, es: seq<Event>)
    requires t !in s.drawn
    ensures d !in s.clients && es == [Grant(place, WriteFiles), Begin(d, IssueCheck(place, "f", 1)), Advance(d, World(0, true, t))]
    ensures var s' := Run(s, es);
      && s'.clients == s.clients[d := IssueInsert(place, "f", t, 1000)] && s'.drawn == s.drawn[t := (place, Upload)]
      && s'.spent == s.spent
  {
    d := Above(s.clients.Keys);
    es := [Grant(place, WriteFiles), Begin(d, IssueCheck(place, "f", 1)), Advance(d, World(0, true, t))];
    var s1 := Step(s, es[0]);
    var s2 := Step(s1, es[1]);
    assert s2.clients == s.clients[d := IssueCheck(place, "f", 1)] && s2.drawn == s.drawn && (place, WriteFiles) in s2.db.policies;
    var s3 := Step(s2, es[2]);
    assert s3.clients == s.clients[d := IssueInsert(place, "f", t, 1000)];
    RunsThree(s, es);
  }

  lemma RunsThree(s: State, es: seq<Event>)
    requires |es| == 3
    ensures Run(s, es) == Step(Step(Step(s, es[0]), es[1]), es[2])
  {
    Prepended(s, es);
    Prepended(Step(s, es[0]), es[1..]);
    Prepended(Step(Step(s, es[0]), es[1]), es[1..][1..]);
  }

  lemma FromNowhere(s: State, t: Token) returns (es: seq<Event>)
    requires Inv(s) && t !in s.drawn
    ensures t in Run(s, es).spent
  {
    var d, head := Drawing(s, Place("org", "inbox"), t);
    RunKeepsInv(s, head);
    var tail := FromIssuer(Run(s, head), d, t);
    RunConcat(s, head, tail);
    es := head + tail;
  }

  lemma {:induction false} RunConcat(s: State, xs: seq<Event>, ys: seq<Event>)
    ensures Run(s, xs + ys) == Run(Run(s, xs), ys)
    decreases |xs|
  {
    if |xs| == 0 {
      assert xs + ys == ys;
    } else {
      Prepended(s, xs + ys);
      assert (xs + ys)[1..] == xs[1..] + ys;
      RunConcat(Step(s, xs[0]), xs[1..], ys);
    }
  }

  /** In every reachable state a token that has not been consumed can be consumed in some continuation exactly when nobody
    * has drawn it yet, an issuer still holds it, or an unused upload row stands under it. */
  lemma ConsumableExactly(before: seq<Event>, t: Token)
    requires t !in Run(INITIAL, before).spent
    ensures var s := Run(INITIAL, before);
      (exists after :: t in Run(s, after).spent) <==> t !in s.drawn || IssuerHolds(s, t) || UsableRow(s, t)
  {
    var s := Run(INITIAL, before);
    RunKeepsInv(INITIAL, before);
    if t !in s.drawn {
      var after := FromNowhere(s, t);
      assert t in Run(s, after).spent;
    } else if IssuerHolds(s, t) {
      var c :| c in s.clients && Pending(s.clients[c]) && s.clients[c].token == t;
      var after := FromIssuer(s, c, t);
      assert t in Run(s, after).spent;
    } else if UsableRow(s, t) {
      var after := FromRow(s, t);
      assert t in Run(s, after).spent;
    } else {
      forall after ensures t !in Run(s, after).spent {
        UselessIsNeverConsumed(s, after, t);
      }
    }
  }

  // ----- Revocation -----

  /** The moment a revocation or a location delete removes the capability rows, every upload token already in the table
    * for that place is finished: it is consumed later in no run, even after the policy is granted again. */
  lemma RevocationIsFinal(before: seq<Event>, c: nat, w: World, after: seq<Event>, t: Token)
    requires c in Run(INITIAL, before).clients && t in Run(INITIAL, before).db.caps
    requires var s := Run(INITIAL, before);
      s.db.caps[t].action == Upload && s.clients[c] in {RevokeCaps(s.db.caps[t].place, WriteFiles), DropCaps(s.db.caps[t].place)}
    ensures var s := Run(INITIAL, before);
      t in Run(Step(s, Advance(c, w)), after).spent <==> t in s.spent
  {
    var s := Run(INITIAL, before);
    RunKeepsInv(INITIAL, before);
    StepKeepsInv(s, Advance(c, w));
    assert !UsableRow(Step(s, Advance(c, w)), t) && !IssuerHolds(Step(s, Advance(c, w)), t);
    UselessIsNeverConsumed(Step(s, Advance(c, w)), after, t);
  }

  /** About to remove the capability rows of its place, upload capabilities included. */
  predicate CutsUploads(phase: Phase) {
    (phase.RevokeCaps? && phase.action == WriteFiles) || phase.DropCaps?
  }

  predicate Rests(es: seq<Event>, c: nat) {
    forall i :: 0 <= i < |es| ==> es[i] != Crash(c) && !(es[i].Advance? && es[i].client == c)
  }

  /** One whole revocation or location delete inside a run: after `before` client `c` removes the capability rows, then
    * `between` runs, then `c` removes the policy rows. Everybody else does anything throughout. */
  datatype Revocation = Revocation(before: seq<Event>, c: nat, first: World, between: seq<Event>, last: World)
  {
    function AtStart(): State { Run(INITIAL, before) }

    function Cleared(): State { Step(AtStart(), Advance(c, first)) }

    function AtEnd(): State { Run(Cleared(), between) }

    function Completed(): State { Step(AtEnd(), Advance(c, last)) }

    predicate Happens() {
      c in AtStart().clients && CutsUploads(AtStart().clients[c]) && Rests(between, c)
    }

    function Place(): Place
      requires Happens()
    {
      AtStart().clients[c].place
    }
  }

  lemma {:induction false} RestsStays(s: State, es: seq<Event>, c: nat)
    requires c in s.clients && Rests(es, c)
    ensures c in Run(s, es).clients && Run(s, es).clients[c] == s.clients[c]
    decreases |es|
  {
    if |es| > 0 {
      assert es[0] == es[0];
      assert Rests(es[1..], c) by {
        forall i | 0 <= i < |es[1..]| ensures es[1..][i] != Crash(c) && !(es[1..][i].Advance? && es[1..][i].client == c) {
          assert es[1..][i] == es[i + 1];
        }
      }
      RestsStays(Step(s, es[0]), es[1..], c);
    }
  }

  /** The operation does complete: its second statement removes the policy it is about. */
  lemma Completes(r: Revocation)
    requires r.Happens()
    ensures r.c in r.Completed().clients && Final(r.Completed().clients[r.c])
    ensures (r.Place(), WriteFiles) !in r.Completed().db.policies
    ensures r.Completed().db.caps == r.AtEnd().db.caps && r.Completed().drawn == r.AtEnd().drawn && r.Completed().spent == r.AtEnd().spent
    ensures forall t :: IssuerHolds(r.Completed(), t) <==> IssuerHolds(r.AtEnd(), t)
  {
    RestsStays(r.Cleared(), r.between, r.c);
    var s, s' := r.AtEnd(), r.Completed();
    assert s.clients[r.c].RevokePolicy? || s.clients[r.c].DropPolicies?;
    assert forall d :: d in s.clients && d != r.c ==> d in s'.clients && s'.clients[d] == s.clients[d];
    assert forall d :: d in s'.clients ==> d in s.clients;
  }

  function EventsOf(r: Revocation): seq<Event> {
    r.before + [Advance(r.c, r.first)] + r.between + [Advance(r.c, r.last)]
  }

  lemma CompletedIsReached(r: Revocation)
    ensures r.Completed() == Run(INITIAL, EventsOf(r))
  {
    RunAppends(INITIAL, r.before, Advance(r.c, r.first));
    RunConcat(INITIAL, r.before + [Advance(r.c, r.first)], r.between);
    RunAppends(INITIAL, r.before + [Advance(r.c, r.first)] + r.between, Advance(r.c, r.last));
  }

  /** Which uploads a completed revocation leaves alive: of the tokens drawn for its place by the time it is over and not
    * consumed, exactly those whose row was not in the table when the capability rows were removed and which are not lost
    * otherwise, but still with their issuer or in a row written in between, are consumed in some continuation. */
  lemma RevocationMissesExactly(r: Revocation, t: Token)
    requires r.Happens() && t !in r.Completed().spent
    requires t in r.Completed().drawn && r.Completed().drawn[t] == (r.Place(), Upload)
    ensures var s := r.Completed();
      (exists after :: t in Run(s, after).spent) <==> t !in r.AtStart().db.caps && (IssuerHolds(s, t) || t in s.db.caps)
  {
    CompletedIsReached(r);
    RunKeepsInv(INITIAL, EventsOf(r));
    ConsumableExactly(EventsOf(r), t);
    if t in r.AtStart().db.caps {
      Clears(r, t);
      SamePurpose(r, t);
      GoneAtEnd(r, t);
    }
  }

  /** The first statement on its own: nobody's token moves, and no usable upload row of the place is left. */
  lemma Clears(r: Revocation, t: Token)
    requires r.Happens()
    ensures Inv(r.AtStart()) && Inv(r.Cleared())
    ensures r.Cleared().drawn == r.AtStart().drawn && r.Cleared().spent == r.AtStart().spent
    ensures IssuerHolds(r.Cleared(), t) <==> IssuerHolds(r.AtStart(), t)
    ensures t in r.AtStart().drawn && r.AtStart().drawn[t] == (r.Place(), Upload) ==> t !in r.Cleared().db.caps
  {
    RunKeepsInv(INITIAL, r.before);
    StepKeepsInv(r.AtStart(), Advance(r.c, r.first));
    SamePending(r.AtStart(), r.c, r.first, t);
  }

  lemma SamePending(s: State, c: nat, w: World, t: Token)
    requires c in s.clients && !s.clients[c].IssueCheck? && !s.clients[c].IssueInsert?
    ensures IssuerHolds(Step(s, Advance(c, w)), t) <==> IssuerHolds(s, t)
  {
    var s' := Step(s, Advance(c, w));
    assert forall d :: d in s.clients && d != c ==> d in s'.clients && s'.clients[d] == s.clients[d];
    assert forall d :: d in s'.clients ==> d in s.clients;
  }

  /** From a cleared place to the end of the operation, and on: a drawn token of it that nobody holds is gone. */
  lemma GoneAtEnd(r: Revocation, t: Token)
    requires r.Happens() && t in r.AtStart().drawn && r.AtStart().drawn[t] == (r.Place(), Upload) && !IssuerHolds(r.AtStart(), t)
    ensures Inv(r.Completed())
    ensures !IssuerHolds(r.Completed(), t) && !UsableRow(r.Completed(), t) && t in r.Completed().drawn
  {
    Clears(r, t);
    UselessIsNeverConsumed(r.Cleared(), r.between, t);
    RunKeepsInv(r.Cleared(), r.between);
    UselessStaysUseless(r.AtEnd(), Advance(r.c, r.last), t);
    StepKeepsInv(r.AtEnd(), Advance(r.c, r.last));
  }

  /** What a token was drawn for is settled. */
  lemma SamePurpose(r: Revocation, t: Token)
    requires r.Happens() && t in r.AtStart().drawn
    ensures t in r.Completed().drawn && r.Completed().drawn[t] == r.AtStart().drawn[t]
  {
    Clears(r, t);
    StaysDrawn(r.Cleared(), r.between, t);
    DrawnStays(r.AtEnd(), Advance(r.c, r.last));
  }

  lemma {:induction false} StaysDrawn(s: State, es: seq<Event>, t: Token)
    requires t in s.drawn
    ensures t in Run(s, es).drawn && Run(s, es).drawn[t] == s.drawn[t]
    decreases |es|
  {
    if |es| > 0 {
      DrawnStays(s, es[0]);
      StaysDrawn(Step(s, es[0]), es[1..], t);
    }
  }

  /** A revocation during which an upload token of its place gets away: drawn before the operation was over, consumed
    * after. */
  ghost predicate GetsAway(r: Revocation, t: Token, after: seq<Event>)
    requires r.Happens()
  {
    && t in r.Completed().drawn && r.Completed().drawn[t] == (r.Place(), Upload)
    && t !in r.Completed().spent && t in Run(r.Completed(), after).spent
  }

  /** Told at its first statement: a token can get away from a revocation exactly when an issuer for that place holds it,
    * or nobody has drawn it yet. */
  lemma CanGetAwayExactly(before: seq<Event>, c: nat, first: World, t: Token)
    requires c in Run(INITIAL, before).clients && CutsUploads(Run(INITIAL, before).clients[c])
    ensures var s := Run(INITIAL, before);
      (exists between, last, after :: Rests(between, c) && GetsAway(Revocation(before, c, first, between, last), t, after)) <==>
      t !in s.drawn || (IssuerHolds(s, t) && s.drawn[t] == (s.clients[c].place, Upload))
  {
    var s := Run(INITIAL, before);
    RunKeepsInv(INITIAL, before);
    if t !in s.drawn {
      var between, after := DrawnMeanwhile(before, c, first, t);
      assert Rests(between, c) && GetsAway(Revocation(before, c, first, between, first), t, after);
    } else if IssuerHolds(s, t) && s.drawn[t] == (s.clients[c].place, Upload) {
      var after := HeldThroughout(before, c, first, t);
      assert Rests([], c) && GetsAway(Revocation(before, c, first, [], first), t, after);
    } else {
      forall between, last, after | Rests(between, c)
        ensures !GetsAway(Revocation(before, c, first, between, last), t, after)
      {
        NeverAway(Revocation(before, c, first, between, last), t, after);
      }
    }
  }

  lemma HeldThroughout(before: seq<Event>, c: nat, first: World, t: Token) returns (after: seq<Event>)
    requires c in Run(INITIAL, before).clients && CutsUploads(Run(INITIAL, before).clients[c])
    requires var s := Run(INITIAL, before); t in s.drawn && IssuerHolds(s, t) && s.drawn[t] == (s.clients[c].place, Upload)
    ensures GetsAway(Revocation(before, c, first, [], first), t, after)
  {
    var r := Revocation(before, c, first, [], first);
    assert r.AtEnd() == r.Cleared();
    Clears(r, t);
    after := FromHeld(r, t);
  }

  lemma FromHeld(r: Revocation, t: Token) returns (after: seq<Event>)
    requires r.Happens() && IssuerHolds(r.AtEnd(), t) && t in r.AtEnd().drawn && r.AtEnd().drawn[t] == (r.Place(), Upload)
    ensures GetsAway(r, t, after)
  {
    Clears(r, t);
    RunKeepsInv(r.Cleared(), r.between);
    StepKeepsInv(r.AtEnd(), Advance(r.c, r.last));
    Completes(r);
    var d :| d in r.Completed().clients && Pending(r.Completed().clients[d]) && r.Completed().clients[d].token == t;
    after := FromIssuer(r.Completed(), d, t);
  }

  lemma DrawnMeanwhile(before: seq<Event>, c: nat, first: World, t: Token) returns (between: seq<Event>, after: seq<Event>)
    requires c in Run(INITIAL, before).clients && CutsUploads(Run(INITIAL, before).clients[c])
    requires t !in Run(INITIAL, before).drawn
    ensures Rests(between, c) && GetsAway(Revocation(before, c, first, between, first), t, after)
  {
    var s := Run(INITIAL, before);
    var cleared := Step(s, Advance(c, first));
    var d;
    d, between := Drawing(cleared, s.clients[c].place, t);
    var r := Revocation(before, c, first, between, first);
    assert d in r.AtEnd().clients && Pending(r.AtEnd().clients[d]) && r.AtEnd().clients[d].token == t;
    after := FromHeld(r, t);
  }

  lemma NeverAway(r: Revocation, t: Token, after: seq<Event>)
    requires r.Happens() && t in r.AtStart().drawn
    requires IssuerHolds(r.AtStart(), t) ==> r.AtStart().drawn[t] != (r.Place(), Upload)
    ensures !GetsAway(r, t, after)
  {
    SamePurpose(r, t);
    if r.AtStart().drawn[t] == (r.Place(), Upload) {
      GoneAtEnd(r, t);
      UselessIsNeverConsumed(r.Completed(), after, t);
    }
  }

  lemma {:induction false} RunAppends(s: State, es: seq<Event>, e: Event)
    ensures Run(s, es + [e]) == Step(Run(s, es), e)
  {
    RunConcat(s, es, [e]);
    Prepended(Run(s, es), [e]);
  }

  const PLACE := Place("org", "inbox")
  const NOW := World(0, true, 9)
  const SLOT := Cap(PLACE, "f", Upload, 1000, false)
  const GRANTED := State(Db({(PLACE, WriteFiles)}, map[]), map[], map[], [])

  /** An issuer is authorised, then the policy is revoked from beginning to end. */
  const REVOKE_AROUND_ISSUER: seq<Event> :=
    [Begin(0, IssueCheck(PLACE, "f", 1)), Advance(0, NOW), Begin(1, RevokeCaps(PLACE, WriteFiles)), Advance(1, NOW), Advance(1, NOW)]
  const LATE_REVOCATION: seq<Event> := [Grant(PLACE, WriteFiles)] + REVOKE_AROUND_ISSUER
  const REVOKED := State(INITIAL.db, map[0 := IssueInsert(PLACE, "f", 9, 1000), 1 := Done], map[9 := (PLACE, Upload)], [])

  lemma RevokedAroundIssuer()
    ensures Run(GRANTED, REVOKE_AROUND_ISSUER) == REVOKED
  {
    var es := REVOKE_AROUND_ISSUER;
    var begun := GRANTED.(clients := map[0 := IssueCheck(PLACE, "f", 1)]);
    assert Step(GRANTED, es[0]) == begun;
    var checked := GRANTED.(clients := map[0 := IssueInsert(PLACE, "f", 9, 1000)], drawn := map[9 := (PLACE, Upload)]);
    assert Step(begun, es[1]) == checked;
    var revoking := checked.(clients := checked.clients[1 := RevokeCaps(PLACE, WriteFiles)]);
    assert Step(checked, es[2]) == revoking;
    var cleared := checked.(clients := checked.clients[1 := RevokePolicy(PLACE, WriteFiles)]);
    assert Step(revoking, es[3]) == cleared;
    assert Step(cleared, es[4]) == REVOKED;
    RunsFive(GRANTED, es);
  }

  lemma Granted(es: seq<Event>)
    ensures Run(INITIAL, [Grant(PLACE, WriteFiles)] + es) == Run(GRANTED, es)
  {
    RunConcat(INITIAL, [Grant(PLACE, WriteFiles)], es);
    Prepended(INITIAL, [Grant(PLACE, WriteFiles)]);
    assert Step(INITIAL, Grant(PLACE, WriteFiles)) == GRANTED;
  }

  /** The complete revocation leaves no policy and no row, and still the token of the waiting issuer is consumed later. */
  lemma LateIssueIsConsumed()
    ensures Run(INITIAL, LATE_REVOCATION).db == INITIAL.db && exists after :: 9 in Run(Run(INITIAL, LATE_REVOCATION), after).spent
  {
    Granted(REVOKE_AROUND_ISSUER);
    RevokedAroundIssuer();
    assert IssuerHolds(REVOKED, 9) by {
      assert 0 in REVOKED.clients && Pending(REVOKED.clients[0]);
    }
    ConsumableExactly(LATE_REVOCATION, 9);
  }

  /** An issuer comes and goes entirely between the two statements of a revocation. */
  const ISSUE_IN_BETWEEN: seq<Event> :=
    [Begin(1, RevokeCaps(PLACE, WriteFiles)), Advance(1, NOW), Begin(0, IssueCheck(PLACE, "f", 1)), Advance(0, NOW), Advance(0, NOW)]
  const SPLIT_REVOCATION: seq<Event> := [Grant(PLACE, WriteFiles)] + (ISSUE_IN_BETWEEN + [Advance(1, NOW)])
  const ISSUED_BETWEEN :=
    State(Db({(PLACE, WriteFiles)}, map[9 := SLOT]), map[0 := Issued(9), 1 := RevokePolicy(PLACE, WriteFiles)], map[9 := (PLACE, Upload)], [])

  lemma IssuedInBetween()
    ensures Run(GRANTED, ISSUE_IN_BETWEEN) == ISSUED_BETWEEN
  {
    var es := ISSUE_IN_BETWEEN;
    var revoking := GRANTED.(clients := map[1 := RevokeCaps(PLACE, WriteFiles)]);
    assert Step(GRANTED, es[0]) == revoking;
    var cleared := GRANTED.(clients := map[1 := RevokePolicy(PLACE, WriteFiles)]);
    assert Step(revoking, es[1]) == cleared;
    var begun := GRANTED.(clients := cleared.clients[0 := IssueCheck(PLACE, "f", 1)]);
    assert Step(cleared, es[2]) == begun;
    var checked := GRANTED.(clients := cleared.clients[0 := IssueInsert(PLACE, "f", 9, 1000)], drawn := map[9 := (PLACE, Upload)]);
    assert Step(begun, es[3]) == checked;
    assert Step(checked, es[4]) == ISSUED_BETWEEN;
    RunsFive(GRANTED, es);
  }

  /** The complete revocation leaves no policy but a fresh row, and its token is consumed later. */
  lemma IssueBetweenIsConsumed()
    ensures var s := Run(INITIAL, SPLIT_REVOCATION);
      s.clients == map[0 := Issued(9), 1 := Done] && s.db == Db({}, map[9 := SLOT]) && exists after :: 9 in Run(s, after).spent
  {
    Granted(ISSUE_IN_BETWEEN + [Advance(1, NOW)]);
    RunAppends(GRANTED, ISSUE_IN_BETWEEN, Advance(1, NOW));
    IssuedInBetween();
    assert Step(ISSUED_BETWEEN, Advance(1, NOW)) == ISSUED_BETWEEN.(db := Db({}, map[9 := SLOT]), clients := map[0 := Issued(9), 1 := Done]);
    ConsumableExactly(SPLIT_REVOCATION, 9);
  }

  // ----- Requests left alone, row by row -----

  /** A request begins under a free number, and a crash ends one that has no answer yet. */
  lemma ComesAndGoes(s: State, client: nat, phase: Phase)
    ensures client !in s.clients && (phase.IssueCheck? || phase.ConsumeLoad? || phase.RevokeCaps? || phase.DropCaps?) ==>
      Step(s, Begin(client, phase)) == s.(clients := s.clients[client := phase])
    ensures client in s.clients && !s.clients[client].Issued? && !s.clients[client].Consumed? && !s.clients[client].Done? && !s.clients[client].Refused? ==>
      Step(s, Crash(client)) == s.(clients := s.clients - {client})
    ensures client in s.clients && (s.clients[client].Issued? || s.clients[client].Consumed? || s.clients[client].Done? || s.clients[client].Refused?) ==>
      Step(s, Crash(client)) == s
  {
  }

  function Remaining(phase: Phase): nat {
    match phase
    case ConsumeLoad(_) => 3
    case IssueCheck(_, _, _) => 2
    case ConsumePolicy(_, _) => 2
    case RevokeCaps(_, _) => 2
    case DropCaps(_) => 2
    case IssueInsert(_, _, _, _) => 1
    case ConsumeWrite(_, _) => 1
    case RevokePolicy(_, _) => 1
    case DropPolicies(_) => 1
    case _ => 0
  }

  /** The tables and the answer once a request ran to its end undisturbed. */
  function Alone(db: Db, phase: Phase, w: World): (Db, Phase)
    decreases Remaining(phase)
  {
    if Final(phase) then (db, phase) else Alone(Apply(db, Issue(phase)), Resume(db, phase, w), w)
  }

  lemma AloneStep(db: Db, phase: Phase, w: World)
    requires !Final(phase)
    ensures Alone(db, phase, w) == Alone(Apply(db, Issue(phase)), Resume(db, phase, w), w)
  {
  }

  /** A token is consumed exactly if it is an unexpired, unused upload whose policy stands; the other rows are as they were. */
  lemma ConsumerTable(db: Db, token: Token, w: World)
    ensures Alone(db, ConsumeLoad(token), w) ==
      if token !in db.caps || db.caps[token].action == Download || w.now >= db.caps[token].expires || db.caps[token].used
      then (db, Refused("UNAUTHORIZED"))
      else if !w.gate || (db.caps[token].place, WriteFiles) !in db.policies then (db, Refused("FORBIDDEN"))
      else (db.(caps := db.caps[token := db.caps[token].(used := true)]), Consumed(token, db.caps[token]))
  {
    AloneStep(db, ConsumeLoad(token), w);
    if token in db.caps {
      AloneStep(db, ConsumePolicy(token, db.caps[token]), w);
      AloneStep(db, ConsumeWrite(token, db.caps[token]), w);
    }
  }

  /** A slot is issued exactly under a standing write policy; its row is what was asked for, to the second. */
  lemma IssuerTable(db: Db, place: Place, path: string, expiresIn: nat, w: World)
    requires w.token !in db.caps
    ensures Alone(db, IssueCheck(place, path, expiresIn), w) ==
      if w.gate && (place, WriteFiles) in db.policies
      then (db.(caps := db.caps[w.token := Cap(place, path, Upload, w.now + 1000 * expiresIn, false)]), Issued(w.token))
      else (db, Refused("FORBIDDEN"))
  {
    AloneStep(db, IssueCheck(place, path, expiresIn), w);
    AloneStep(db, IssueInsert(place, path, w.token, w.now + expiresIn * 1000), w);
  }

  /** A revocation takes the policy, and with read the downloads of its place, with write its uploads, with delete none. */
  lemma RevokerTable(db: Db, place: Place, action: PolicyAction, w: World)
    ensures var (db', answer) := Alone(db, RevokeCaps(place, action), w);
      && answer == (if (place, action) in db.policies then Done else Refused("NOT_FOUND"))
      && db'.policies == db.policies - {(place, action)}
      && (forall t :: t in db'.caps <==>
            t in db.caps && !(db.caps[t].place == place &&
                              ((action == ReadFiles && db.caps[t].action == Download) || (action == WriteFiles && db.caps[t].action == Upload))))
      && (forall t :: t in db'.caps ==> db'.caps[t] == db.caps[t])
  {
    var cut := Apply(db, Issue(RevokeCaps(place, action)));
    AloneStep(db, RevokeCaps(place, action), w);
    AloneStep(cut, RevokePolicy(place, action), w);
  }

  /** A location delete takes every policy and every capability of the place and nothing else. */
  lemma DropperTable(db: Db, place: Place, w: World)
    ensures var (db', answer) := Alone(db, DropCaps(place), w);
      && answer == Done
      && (forall p :: p in db'.policies <==> p in db.policies && p.0 != place)
      && (forall t :: t in db'.caps <==> t in db.caps && db.caps[t].place != place)
      && (forall t :: t in db'.caps ==> db'.caps[t] == db.caps[t])
  {
    var cut := Apply(db, Issue(DropCaps(place)));
    AloneStep(db, DropCaps(place), w);
    AloneStep(cut, DropPolicies(place), w);
    forall t | t in db.caps ensures db.caps[t].action == Upload || db.caps[t].action == Download {
    }
  }

  // ----- The file tables as an object -----

  datatype FileRow = FileRow(version: nat, ready: bool, updatedAt: int)

  datatype Answer = Ok | NotFound | Forbidden | LocationNotEmpty

  class FileStore {
    var locations: set<Place>
    var policies: set<(Place, PolicyAction)>
    var caps: map<Token, Cap>
    var files: map<(Place, string), FileRow>

    ghost function Tables(): Db
      reads this
    {
      Db(policies, caps)
    }

    constructor ()
      ensures Tables() == INITIAL.db && locations == {} && files == map[]
    {
      locations, policies, caps, files := {}, {}, map[], map[];
    }

    method GrantPolicy(place: Place, action: PolicyAction) returns (answer: Answer)
      modifies this`policies
      ensures answer == if place in locations then Ok else NotFound
      ensures Tables() == if answer.Ok? then Apply(old(Tables()), InsertPolicy(place, action)) else old(Tables())
    {
      if place !in locations {
        return NotFound;
      }
      policies := policies + {(place, action)};
      answer := Ok;
    }

    method DeleteCapRows(place: Place, actions: set<CapAction>)
      modifies this`caps
      ensures Tables() == Apply(old(Tables()), DeleteCaps(place, actions))
    {
      caps := map t | t in caps && !(caps[t].place == place && caps[t].action in actions) :: caps[t];
    }

    /** Undisturbed, a revocation at a declared location leaves neither the policy nor any capability issued under it, and
      * touches nothing else; it answers not found exactly when the location or the policy was not there, and with the
      * location there it cleans up the capabilities all the same. */
    method RevokePolicy(place: Place, action: PolicyAction) returns (answer: Answer)
      modifies this`caps, this`policies
      ensures answer == if place in locations && (place, action) in old(policies) then Ok else NotFound
      ensures place !in locations ==> policies == old(policies) && caps == old(caps)
      ensures place in locations ==> policies == old(policies) - {(place, action)}
      ensures place in locations ==>
        forall t :: t in caps <==> t in old(caps) && !(old(caps)[t].place == place && CapActionOf(action) == Some(old(caps)[t].action))
      ensures forall t :: t in caps ==> t in old(caps) && caps[t] == old(caps)[t]
    {
      if place !in locations {
        return NotFound;
      }
      var cap := CapActionOf(action);
      if cap.Some? {
        DeleteCapRows(place, {cap.value});
      }
      answer := if (place, action) in policies then Ok else NotFound;
      policies := policies - {(place, action)};
    }

    /** Refused while the location holds a file; otherwise nothing of the place is left and everything else is. */
    method DeleteLocation(place: Place) returns (answer: Answer)
      modifies this`caps, this`policies, this`locations
      ensures answer ==
        if place !in old(locations) then NotFound
        else if exists path :: (place, path) in files then LocationNotEmpty
        else Ok
      ensures !answer.Ok? ==> locations == old(locations) && policies == old(policies) && caps == old(caps)
      ensures answer.Ok? ==> locations == old(locations) - {place}
      ensures answer.Ok? ==> forall p :: p in policies <==> p in old(policies) && p.0 != place
      ensures answer.Ok? ==> forall t :: t in caps <==> t in old(caps) && old(caps)[t].place != place
      ensures forall t :: t in caps ==> t in old(caps) && caps[t] == old(caps)[t]
    {
      if place !in locations {
        return NotFound;
      }
      var held := set f | f in files && f.0 == place;
      if held != {} {
        var f :| f in held;
        assert (place, f.1) in files;
        return LocationNotEmpty;
      }
      assert forall path :: (place, path) in files ==> (place, path) in held;
      var both := {Upload, Download};
      DeleteCapRows(place, both);
      assert forall t :: t in old(caps) ==> old(caps)[t].action == Upload || old(caps)[t].action == Download;
      policies := set p | p in policies && p.0 != place;
      locations := locations - {place};
      answer := Ok;
    }

    /** A capability row exactly under a declared location with a standing write policy and no ceiling in the way. The file
      * row is then there: a new path gets a pending row of version 0, a pending one is touched, a ready one is not. */
    method IssueUploadSlot(place: Place, path: string, token: Token, now: int, expiresIn: nat, viewer: bool) returns (answer: Answer)
      requires token !in caps
      modifies this`caps, this`files
      ensures answer ==
        if place !in locations then NotFound else if viewer || (place, WriteFiles) !in policies then Forbidden else Ok
      ensures !answer.Ok? ==> caps == old(caps) && files == old(files)
      ensures answer.Ok? ==> caps == old(caps)[token := Cap(place, path, Upload, now + expiresIn * 1000, false)]
      ensures answer.Ok? ==> files.Keys == old(files).Keys + {(place, path)}
      ensures forall f :: f in old(files) && (f != (place, path) || old(files)[f].ready) ==> f in files && files[f] == old(files)[f]
      ensures answer.Ok? && (place, path) !in old(files) ==> files[(place, path)] == FileRow(0, false, now)
      ensures answer.Ok? && (place, path) in old(files) && !old(files)[(place, path)].ready ==>
        files[(place, path)] == FileRow(old(files)[(place, path)].version, false, now)
    {
      if viewer {
        return if place !in locations then NotFound else Forbidden;
      }
      if place !in locations || (place, WriteFiles) !in policies {
        return if place !in locations then NotFound else Forbidden;
      }
      if (place, path) !in files {
        files := files[(place, path) := FileRow(0, false, now)];
      } else if !files[(place, path)].ready {
        files := files[(place, path) := files[(place, path)].(updatedAt := now)];
      }
      caps := caps[token := Cap(place, path, Upload, now + expiresIn * 1000, false)];
      answer := Ok;
    }

    /** A token is consumed exactly when it names an unused, unexpired upload capability whose policy still stands; a
      * second call with the same token always fails. */
    method ConsumeUploadToken(token: Token, w: World) returns (consumed: bool)
      modifies this`caps
      ensures consumed <==>
        && token in old(caps) && old(caps)[token].action == Upload
        && w.now < old(caps)[token].expires && !old(caps)[token].used
        && w.gate && (old(caps)[token].place, WriteFiles) in policies
      ensures caps == if consumed then old(caps)[token := old(caps)[token].(used := true)] else old(caps)
      ensures Tables() == Alone(old(Tables()), ConsumeLoad(token), w).0
      ensures consumed <==> Alone(old(Tables()), ConsumeLoad(token), w).1.Consumed?
    {
      ConsumerTable(Tables(), token, w);
      if token !in caps || caps[token].action != Upload {
        return false;
      }
      var cap := caps[token];
      if cap.expires <= w.now || cap.used {
        return false;
      }
      if !w.gate || (cap.place, WriteFiles) !in policies {
        return false;
      }
      consumed := !caps[token].used;
      if consumed {
        caps := caps[token := caps[token].(used := true)];
      }
    }
  }

}
