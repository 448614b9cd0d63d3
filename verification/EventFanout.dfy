/** Fan-out of one event over its subscriptions, the operator's retry and the two delivery listings. */
module EventFanout {

  import opened Wrappers
  import opened Identity
  import opened Sets
  import opened Paging
  import opened EventDelivery

  const DELIVERY_LIST_LIMIT := 50

  // ----- One fan-out -----

  /** A subscription row as the scan read it. */
  datatype Candidate = Candidate(name: string, filter: string, enabled: bool)

  /** How one dispatch ends for its fan-out: a Fault is caught and reported, any other error aborts the fan-out. */
  datatype Outcome = Accepted(exec: Exec, replayed: bool) | Faulted(code: string) | Broken

  datatype Delivery = Dispatched(name: string, exec: Exec, replayed: bool) | Skipped(name: string, code: string)

  datatype Fanout = Fanout(deliveries: seq<Delivery>, overflowSkipped: nat)

  function Matched(scanned: seq<Candidate>, topic: string): seq<Candidate> {
    if |scanned| == 0 then []
    else
      var before, c := Matched(scanned[..|scanned| - 1], topic), scanned[|scanned| - 1];
      if MatchesTopicFilter(topic, c.filter) then before + [c] else before
  }

  function Enabled(rows: seq<Candidate>): seq<Candidate> {
    if |rows| == 0 then []
    else
      var before, c := Enabled(rows[..|rows| - 1]), rows[|rows| - 1];
      if c.enabled then before + [c] else before
  }

  function FirstOf<T>(rows: seq<T>, n: nat): seq<T> {
    if |rows| <= n then rows else rows[..n]
  }

  /** The names a fan-out dispatches to, in order. */
  function Attempted(matched: seq<Candidate>): seq<Candidate> {
    FirstOf(Enabled(matched), FANOUT_LIMIT)
  }

  /** An aborting outcome never reaches a report. */
  function Report(c: Candidate, outcome: Outcome): Delivery {
    match outcome
    case Accepted(exec, replayed) => Dispatched(c.name, exec, replayed)
    case Faulted(code) => Skipped(c.name, code)
    case Broken => Skipped(c.name, "")
  }

  /** What a fan-out reports, in scan order. */
  function Reports(matched: seq<Candidate>, outcomes: Candidate -> Outcome): seq<Delivery> {
    if |matched| == 0 then []
    else
      var before, c := Reports(matched[..|matched| - 1], outcomes), matched[|matched| - 1];
      if !c.enabled then before + [Skipped(c.name, "SUBSCRIPTION_DISABLED")]
      else if |Enabled(matched[..|matched| - 1])| >= FANOUT_LIMIT then before
      else before + [Report(c, outcomes(c))]
  }

  function Tally(matched: seq<Candidate>): nat {
    var n := |Enabled(matched)|;
    if n <= FANOUT_LIMIT then 0 else n - FANOUT_LIMIT
  }

  lemma EnabledPrefix(rows: seq<Candidate>, i: nat)
    requires i < |rows|
    ensures Enabled(rows[..i + 1]) == if rows[i].enabled then Enabled(rows[..i]) + [rows[i]] else Enabled(rows[..i])
  {
    assert rows[..i + 1][..i] == rows[..i];
  }

  /** The fan-out loop. It dispatches exactly to the first ten enabled matches in scan order and stops early only when
    * a dispatch fails with something other than a Fault. */
  method DispatchEventFanout(scanned: seq<Candidate>, topic: string, outcomes: Candidate -> Outcome)
    returns (result: Option<Fanout>, attempted: seq<Candidate>)
    ensures attempted <= Attempted(Matched(scanned, topic))
    ensures result.Some? <==> forall c :: c in Attempted(Matched(scanned, topic)) ==> !outcomes(c).Broken?
    ensures result.Some? ==> attempted == Attempted(Matched(scanned, topic))
    ensures result.Some? ==> result.value == Fanout(Reports(Matched(scanned, topic), outcomes), Tally(Matched(scanned, topic)))
  {
    var matched := FilterMatched(scanned, topic);
    var deliveries: seq<Delivery> := [];
    attempted := [];
    var overflowSkipped := 0;
    for i := 0 to |matched|
      invariant attempted == FirstOf(Enabled(matched[..i]), FANOUT_LIMIT)
      invariant forall c :: c in attempted ==> !outcomes(c).Broken?
      invariant overflowSkipped == Tally(matched[..i])
      invariant deliveries == Reports(matched[..i], outcomes)
    {
      var candidate := matched[i];
      EnabledPrefix(matched, i);
      assert matched[..i + 1][..i] == matched[..i];
      if !candidate.enabled {
        deliveries := deliveries + [Skipped(candidate.name, "SUBSCRIPTION_DISABLED")];
        continue;
      }
      if |attempted| >= FANOUT_LIMIT {
        overflowSkipped := overflowSkipped + 1;
        continue;
      }
      attempted := attempted + [candidate];
      AttemptedGrows(matched, i);
      var outcome := outcomes(candidate);
      if outcome.Broken? {
        assert candidate in attempted;
        return None, attempted;
      }
      deliveries := deliveries + [Report(candidate, outcome)];
    }
    assert matched[..|matched|] == matched;
    return Some(Fanout(deliveries, overflowSkipped)), attempted;
  }

  /** Deliveries and overflow together account for every match; disabled rows are reported and use none of the bound;
    * every attempt has its report. */
  lemma {:induction false} FanoutAccounts(matched: seq<Candidate>, outcomes: Candidate -> Outcome)
    ensures |Reports(matched, outcomes)| + Tally(matched) == |matched|
    ensures forall c :: c in matched && !c.enabled ==> Skipped(c.name, "SUBSCRIPTION_DISABLED") in Reports(matched, outcomes)
    ensures forall c :: c in Attempted(matched) ==> Report(c, outcomes(c)) in Reports(matched, outcomes)
    ensures forall c :: c in Attempted(matched) && outcomes(c).Accepted? ==>
      Dispatched(c.name, outcomes(c).exec, outcomes(c).replayed) in Reports(matched, outcomes)
    ensures forall c :: c in Attempted(matched) && outcomes(c).Faulted? ==> Skipped(c.name, outcomes(c).code) in Reports(matched, outcomes)
    ensures |Attempted(matched)| <= 10
    decreases |matched|
  {
    if |matched| > 0 {
      FanoutAccounts(matched[..|matched| - 1], outcomes);
      EnabledPrefix(matched, |matched| - 1);
      assert matched[..|matched| - 1] + [matched[|matched| - 1]] == matched == matched[..|matched| - 1 + 1];
    }
  }

  lemma {:induction false} EnabledIsPrefix(rows: seq<Candidate>, i: nat)
    requires i <= |rows|
    ensures Enabled(rows[..i]) <= Enabled(rows)
    decreases |rows|
  {
    if i < |rows| {
      EnabledIsPrefix(rows[..|rows| - 1], i);
      assert rows[..|rows| - 1][..i] == rows[..i];
    } else {
      assert rows[..i] == rows;
    }
  }

  /** An attempt made below the bound belongs to the attempts of the whole fan-out. */
  lemma AttemptedGrows(matched: seq<Candidate>, i: nat)
    requires i < |matched| && matched[i].enabled && |Enabled(matched[..i])| < FANOUT_LIMIT
    ensures Enabled(matched[..i]) + [matched[i]] <= Attempted(matched)
  {
    EnabledPrefix(matched, i);
    EnabledIsPrefix(matched, i + 1);
  }

  method FilterMatched(scanned: seq<Candidate>, topic: string) returns (matched: seq<Candidate>)
    ensures matched == Matched(scanned, topic)
  {
    matched := [];
    for i := 0 to |scanned|
      invariant matched == Matched(scanned[..i], topic)
    {
      assert scanned[..i + 1][..i] == scanned[..i];
      if MatchesTopicFilter(topic, scanned[i].filter) {
        matched := matched + [scanned[i]];
      }
    }
    assert scanned[..|scanned|] == scanned;
  }

  // ----- Name order -----

  ghost predicate InNameOrder(rows: seq<Candidate>) {
    forall i, j :: 0 <= i < j < |rows| ==> NameBefore(rows[i].name, rows[j].name)
  }

  lemma {:induction false} MatchedKeepsOrder(scanned: seq<Candidate>, topic: string)
    requires InNameOrder(scanned)
    ensures InNameOrder(Matched(scanned, topic))
    ensures forall c :: c in Matched(scanned, topic) <==> c in scanned && MatchesTopicFilter(topic, c.filter)
    decreases |scanned|
  {
    if |scanned| > 0 {
      MatchedKeepsOrder(scanned[..|scanned| - 1], topic);
      assert scanned == scanned[..|scanned| - 1] + [scanned[|scanned| - 1]];
      var before := Matched(scanned[..|scanned| - 1], topic);
      forall i | 0 <= i < |before| ensures NameBefore(before[i].name, scanned[|scanned| - 1].name) {
        assert before[i] in before;
      }
    }
  }

  lemma {:induction false} EnabledKeepsOrder(rows: seq<Candidate>)
    requires InNameOrder(rows)
    ensures InNameOrder(Enabled(rows))
    ensures forall c :: c in Enabled(rows) <==> c in rows && c.enabled
    decreases |rows|
  {
    if |rows| > 0 {
      EnabledKeepsOrder(rows[..|rows| - 1]);
      assert rows == rows[..|rows| - 1] + [rows[|rows| - 1]];
      var before := Enabled(rows[..|rows| - 1]);
      forall i | 0 <= i < |before| ensures NameBefore(before[i].name, rows[|rows| - 1].name) {
        assert before[i] in before;
      }
    }
  }

  lemma FirstComeBefore(rows: seq<Candidate>, n: nat)
    requires InNameOrder(rows)
    ensures forall c :: c in FirstOf(rows, n) ==> c in rows
    ensures forall a, o :: a in FirstOf(rows, n) && o in rows && o !in FirstOf(rows, n) ==> NameBefore(a.name, o.name)
  {
    var first := FirstOf(rows, n);
    assert forall j :: 0 <= j < |first| ==> rows[j] == first[j] && rows[j] in first;
    forall a, o | a in first && o in rows && o !in first ensures NameBefore(a.name, o.name) {
      var i :| 0 <= i < |first| && first[i] == a;
      var j :| 0 <= j < |rows| && rows[j] == o;
      assert |first| <= j;
    }
  }

  /** Over a scan in name order, the attempted rows are enabled matches, as many of them as the bound allows, and every
    * enabled match that overflows has a larger name than everybody attempted. */
  lemma AttemptedAreFirst(scanned: seq<Candidate>, topic: string)
    requires InNameOrder(scanned)
    ensures var matched := Matched(scanned, topic);
      && (forall c :: c in Attempted(matched) ==> c in scanned && c.enabled && MatchesTopicFilter(topic, c.filter))
      && |Attempted(matched)| == (if |Enabled(matched)| <= FANOUT_LIMIT then |Enabled(matched)| else FANOUT_LIMIT)
      && (forall a, o :: a in Attempted(matched) && o in scanned && o.enabled && MatchesTopicFilter(topic, o.filter) && o !in Attempted(matched) ==>
            NameBefore(a.name, o.name))
  {
    var matched := Matched(scanned, topic);
    MatchedKeepsOrder(scanned, topic);
    EnabledKeepsOrder(matched);
    FirstComeBefore(Enabled(matched), FANOUT_LIMIT);
  }

  // ----- The scan -----

  /** The rows of one source, as the SELECT lists them. */
  ghost predicate IsScanOf(scanned: seq<Candidate>, db: Db, source: Source) {
    && InNameOrder(scanned)
    && (forall c :: c in scanned <==> Sub(source, c.name) in db.subs && c == CandidateOf(db, Sub(source, c.name)))
  }

  function CandidateOf(db: Db, t: Sub): Candidate
    requires t in db.subs
  {
    Candidate(t.name, db.subs[t].filter, db.subs[t].enabled)
  }

  function SubsOf(source: Source, rows: seq<Candidate>): set<Sub> {
    set c | c in rows :: Sub(source, c.name)
  }

  lemma LastIsNew(source: Source, rows: seq<Candidate>)
    requires InNameOrder(rows) && |rows| > 0
    ensures var init, last := rows[..|rows| - 1], rows[|rows| - 1];
      Sub(source, last.name) !in SubsOf(source, init) && SubsOf(source, rows) == SubsOf(source, init) + {Sub(source, last.name)}
  {
    var init, last := rows[..|rows| - 1], rows[|rows| - 1];
    assert forall c :: c in rows <==> c in init || c == last by {
      assert rows == init + [last];
    }
    NotBeforeItself(last.name);
    forall c | c in init ensures c.name != last.name {
      var i :| 0 <= i < |init| && init[i] == c;
      assert rows[i] == c && NameBefore(rows[i].name, last.name);
    }
  }

  lemma {:induction false} SubsCount(source: Source, rows: seq<Candidate>)
    requires InNameOrder(rows)
    ensures |SubsOf(source, rows)| == |rows|
    decreases |rows|
  {
    if |rows| > 0 {
      LastIsNew(source, rows);
      SubsCount(source, rows[..|rows| - 1]);
    }
  }

  lemma {:induction false} NeverBothBefore(a: string, b: string)
    requires NameBefore(a, b)
    ensures !NameBefore(b, a)
    decreases |a|
  {
    if |a| > 0 && a[0] == b[0] {
      NeverBothBefore(a[1..], b[1..]);
    }
  }

  /** In the ordered list of eligible rows, those ahead of a row are those before it. */
  lemma AheadIsBefore(db: Db, source: Source, content: Content, rows: seq<Candidate>, i: nat)
    requires InNameOrder(rows) && i < |rows|
    requires forall t :: Eligible(db, source, content, t) <==> t in SubsOf(source, rows)
    ensures Ahead(db, source, content, rows[i].name) == SubsOf(source, rows[..i])
  {
    forall t | t in Ahead(db, source, content, rows[i].name) ensures t in SubsOf(source, rows[..i]) {
      assert t in SubsOf(source, rows);
      var j :| 0 <= j < |rows| && Sub(source, rows[j].name) == t;
      NotBeforeItself(t.name);
      if i < j {
        NeverBothBefore(rows[i].name, rows[j].name);
      }
      assert rows[..i][j] == rows[j];
    }
    forall t | t in SubsOf(source, rows[..i]) ensures t in Ahead(db, source, content, rows[i].name) {
      var j :| 0 <= j < i && Sub(source, rows[..i][j].name) == t;
      assert rows[j] in rows && NameBefore(rows[j].name, rows[i].name);
      assert t in SubsOf(source, rows) && Eligible(db, source, content, t);
    }
  }

  /** What the machine's scan picks is what the fan-out loop attempts on the rows of its SELECT. */
  lemma ScanIsAttempted(db: Db, source: Source, content: Content, scanned: seq<Candidate>)
    requires IsScanOf(scanned, db, source)
    ensures forall name :: name in ScanNames(db, source, content) <==>
      exists c :: c in Attempted(Matched(scanned, content.topic)) && c.name == name
  {
    var rows := Enabled(Matched(scanned, content.topic));
    MatchedKeepsOrder(scanned, content.topic);
    EnabledKeepsOrder(Matched(scanned, content.topic));
    EligibleRows(db, source, content, scanned);
    forall i | 0 <= i < |rows| ensures |Ahead(db, source, content, rows[i].name)| == i {
      AheadIsBefore(db, source, content, rows, i);
      SubsCount(source, rows[..i]);
    }
    forall name ensures name in ScanNames(db, source, content) <==> exists c :: c in FirstOf(rows, FANOUT_LIMIT) && c.name == name {
      PickedIsFirst(db, source, content, rows, name);
    }
  }

  lemma EligibleRows(db: Db, source: Source, content: Content, scanned: seq<Candidate>)
    requires IsScanOf(scanned, db, source)
    ensures forall t :: Eligible(db, source, content, t) <==> t in SubsOf(source, Enabled(Matched(scanned, content.topic)))
  {
    MatchedKeepsOrder(scanned, content.topic);
    EnabledKeepsOrder(Matched(scanned, content.topic));
    forall t | Eligible(db, source, content, t) ensures t in SubsOf(source, Enabled(Matched(scanned, content.topic))) {
      assert t == Sub(source, t.name);
      assert CandidateOf(db, t) in scanned;
    }
  }

  lemma PickedIsFirst(db: Db, source: Source, content: Content, rows: seq<Candidate>, name: string)
    requires forall t :: Eligible(db, source, content, t) <==> t in SubsOf(source, rows)
    requires forall i :: 0 <= i < |rows| ==> |Ahead(db, source, content, rows[i].name)| == i
    ensures name in ScanNames(db, source, content) <==> exists c :: c in FirstOf(rows, FANOUT_LIMIT) && c.name == name
  {
    var first := FirstOf(rows, FANOUT_LIMIT);
    if name in ScanNames(db, source, content) {
      var t :| t in db.subs && Eligible(db, source, content, t) && |Ahead(db, source, content, t.name)| < FANOUT_LIMIT && t.name == name;
      var i :| 0 <= i < |rows| && Sub(source, rows[i].name) == t;
      assert first[i] == rows[i];
    }
    if c :| c in first && c.name == name {
      var i :| 0 <= i < |first| && first[i] == c;
      assert rows[i] == c && rows[i] in rows;
      assert Eligible(db, source, content, Sub(source, name));
    }
  }

  // ----- Retry -----

  /** The request has its answer, or goes on with the dispatches of a fan-out. */
  predicate Ends(phase: Phase) {
    Final(phase) || phase.Emitted? || phase.Scanned?
  }

  /** One client of the event tables, undisturbed. */
  function Remaining(phase: Phase): nat {
    match phase
    case EmitLoad(_, _, _) => 3
    case EmitInsert(_, _, _) => 2
    case EmitCompare(_, _, _) => 1
    case RetryRead(_, _, _) => 6
    case RetryBound(_, _, _) => 5
    case Fence(_, _, _) => 4
    case Gates(_, _, _, _) => 3
    case Submit(_, _, _, _) => 2
    case Receipt(_, _, _, _) => 1
    case _ => 0
  }

  lemma ResumeIsNearer(db: Db, phase: Phase, w: World)
    requires !Ends(phase)
    ensures Remaining(Resume(db, phase, w)) < Remaining(phase)
  {
    var next := Resume(db, phase, w);
    match phase
    case EmitLoad(_, _, _) => assert next.EmitInsert? || next.Refused?;
    case EmitInsert(_, _, _) => assert next.EmitCompare? || next.Emitted?;
    case EmitCompare(_, _, _) => assert next.Emitted? || next.Refused?;
    case RetryRead(_, _, _) => assert next.RetryBound? || next.Refused?;
    case RetryBound(_, _, _) => assert next.Fence? || next.Refused?;
    case Fence(_, _, _) => assert next.Gates? || next.Refused?;
    case Gates(_, _, _, _) => assert next.Submit? || next.Refused?;
    case Submit(_, _, _, _) => assert next.Receipt? || next.Refused?;
    case Receipt(_, _, _, _) => assert next.Delivered?;
  }

  function Alone(db: Db, phase: Phase, w: World): (Db, Phase)
    decreases Remaining(phase)
  {
    if Ends(phase) then (db, phase)
    else
      ResumeIsNearer(db, phase, w);
      Alone(Apply(db, Issue(phase)), Resume(db, phase, w), w)
  }

  lemma AloneStep(db: Db, phase: Phase, w: World)
    requires !Ends(phase)
    ensures Alone(db, phase, w) == Alone(Apply(db, Issue(phase)), Resume(db, phase, w), w)
  {
  }

  /** A retry writes at most its own receipt, and only when the receipts of its siblings leave room: run alone, it ends
    * with at most max(before, 10) receipts for the event. A delivered retry is on record. */
  lemma RetryKeepsBound(db: Db, sub: Sub, event: EventId, filter: string, w: World)
    requires sub in db.subs
    ensures var (db', answer) := Alone(db, RetryRead(sub, event, filter), w);
      && |Receipts(db', sub.source, event)| <= (if |Receipts(db, sub.source, event)| > FANOUT_LIMIT then |Receipts(db, sub.source, event)| else FANOUT_LIMIT)
      && (answer.Delivered? ==> sub in Receipts(db', sub.source, event))
      && (answer == Refused("DELIVERY_BOUND_EXCEEDED") ==> db' == db && |OtherReceipts(db, sub, event)| >= FANOUT_LIMIT)
  {
    AloneStep(db, RetryRead(sub, event, filter), w);
    if (sub.source, event) in db.log && MatchesTopicFilter(db.log[(sub.source, event)].topic, filter) {
      var content := db.log[(sub.source, event)];
      AloneStep(db, RetryBound(sub, event, content), w);
      if |OtherReceipts(db, sub, event)| < FANOUT_LIMIT {
        DispatchAlone(db, sub, event, content, w);
        AtMostOneMore(Receipts(db, sub.source, event), sub);
        SubsetCount(Receipts(Alone(db, Fence(sub, event, content), w).0, sub.source, event), Receipts(db, sub.source, event) + {sub});
      }
    }
  }

  lemma AtMostOneMore(receipts: set<Sub>, sub: Sub)
    ensures |receipts + {sub}| <= |receipts - {sub}| + 1
  {
    assert receipts + {sub} == (receipts - {sub}) + {sub};
  }

  /** One dispatch, undisturbed: it never touches another subscription's receipt. */
  lemma DispatchAlone(db: Db, sub: Sub, event: EventId, content: Content, w: World)
    ensures var (db', answer) := Alone(db, Fence(sub, event, content), w);
      && Receipts(db, sub.source, event) <= Receipts(db', sub.source, event) <= Receipts(db, sub.source, event) + {sub}
      && (answer.Delivered? ==> sub in Receipts(db', sub.source, event))
      && answer != Refused("DELIVERY_BOUND_EXCEEDED")
  {
    AloneStep(db, Fence(sub, event, content), w);
    if sub in db.subs && db.subs[sub].enabled {
      var row := db.subs[sub];
      AloneStep(db, Gates(sub, event, content, row), w);
      if w.admits {
        SubmitAlone(db, sub, event, content, row, w);
      }
    }
  }

  lemma SubmitAlone(db: Db, sub: Sub, event: EventId, content: Content, row: SubRow, w: World)
    requires sub in db.subs
    ensures var (db', answer) := Alone(db, Submit(sub, event, content, row), w);
      && Receipts(db, sub.source, event) <= Receipts(db', sub.source, event) <= Receipts(db, sub.source, event) + {sub}
      && (answer.Delivered? ==> sub in Receipts(db', sub.source, event))
      && answer != Refused("DELIVERY_BOUND_EXCEEDED")
  {
    var exec := ExecOf(sub, event, row);
    var submitted := Apply(db, Issue(Submit(sub, event, content, row)));
    AloneStep(db, Submit(sub, event, content, row), w);
    assert Receipts(submitted, sub.source, event) == Receipts(db, sub.source, event);
    if Resume(db, Submit(sub, event, content, row), w).Receipt? {
      AloneStep(submitted, Receipt(sub, event, exec, exec in db.executions), w);
    }
  }

  // ----- One dispatch, read off the stored rows -----

  /** The Execution of a delivery belongs to the stored run-as user of the subscription's Organization and to its Saga, with
    * the event's payload; the delivery key names subscription and event. */
  ghost function ExecOfDelivery(sub: Sub, event: EventId, row: SubRow): Exec {
    Exec(Principal(sub.source.org, row.runAs), DeliveryKey(sub, event))
  }

  ghost function Work(row: SubRow, content: Content): Admission {
    Admission(row.saga, Parsed(row.saga, content.payload))
  }

  ghost function DispatchAnswer(db: Db, sub: Sub, event: EventId, content: Content, w: World): Phase {
    if sub !in db.subs then Refused("SUBSCRIPTION_GONE")
    else if !db.subs[sub].enabled then Refused("SUBSCRIPTION_DISABLED")
    else if !w.admits then Refused("NOT_ADMITTED")
    else
      var row, exec := db.subs[sub], ExecOfDelivery(sub, event, db.subs[sub]);
      if exec in db.executions && db.executions[exec] != Work(row, content) then Refused("IDEMPOTENCY_CONFLICT")
      else if w.submit == Held then Refused("SUBMIT_HELD")
      else Delivered(sub, event, exec, exec in db.executions)
  }

  /** A delivered or held dispatch has its Execution on record, a delivered one its receipt, the first one kept; nothing else
    * changes. */
  ghost predicate DispatchLeaves(db: Db, sub: Sub, event: EventId, content: Content, answer: Phase, db': Db) {
    && db'.sources == db.sources && db'.log == db.log && db'.subs == db.subs
    && (answer.Delivered? || answer == Refused("SUBMIT_HELD") ==>
          && sub in db.subs
          && db'.executions == db.executions[ExecOfDelivery(sub, event, db.subs[sub]) := Work(db.subs[sub], content)])
    && (!(answer.Delivered? || answer == Refused("SUBMIT_HELD")) ==> db'.executions == db.executions)
    && db'.receipts == (if answer.Delivered? && (sub, event) !in db.receipts then db.receipts[(sub, event) := answer.exec] else db.receipts)
  }

  lemma DispatchTable(db: Db, sub: Sub, event: EventId, content: Content, w: World)
    ensures var (db', answer) := Alone(db, Fence(sub, event, content), w);
      answer == DispatchAnswer(db, sub, event, content, w) && DispatchLeaves(db, sub, event, content, answer, db')
  {
    AloneStep(db, Fence(sub, event, content), w);
    if sub in db.subs && db.subs[sub].enabled {
      AloneStep(db, Gates(sub, event, content, db.subs[sub]), w);
      if w.admits {
        SubmitTable(db, sub, event, content, w);
      }
    }
  }

  lemma SubmitTable(db: Db, sub: Sub, event: EventId, content: Content, w: World)
    requires sub in db.subs && db.subs[sub].enabled && w.admits
    ensures var (db', answer) := Alone(db, Submit(sub, event, content, db.subs[sub]), w);
      answer == DispatchAnswer(db, sub, event, content, w) && DispatchLeaves(db, sub, event, content, answer, db')
  {
    var row := db.subs[sub];
    var exec := ExecOfDelivery(sub, event, row);
    var submitted := Apply(db, Admit(exec, Work(row, content)));
    AloneStep(db, Submit(sub, event, content, row), w);
    assert exec in db.executions && db.executions[exec] == Work(row, content) ==> db.executions[exec := Work(row, content)] == db.executions;
    if Resume(db, Submit(sub, event, content, row), w).Receipt? {
      AloneStep(submitted, Receipt(sub, event, exec, exec in db.executions), w);
    }
  }

  // ----- Listings -----

  /** A logged event or a receipt in newest-first order. */
  datatype Entry = Entry(at: int, event: EventId)

  predicate Newer(a: Entry, b: Entry) {
    a.at > b.at || (a.at == b.at && a.event > b.event)
  }

  function Received(db: Db, sub: Sub, stamps: EventId -> int): set<Entry> {
    set k | k in db.receipts && k.0 == sub :: Entry(stamps(k.1), k.1)
  }

  function Unreceived(db: Db, sub: Sub, stamps: EventId -> int): set<Entry> {
    set k | k in db.log && k.0 == sub.source && (sub, k.1) !in db.receipts :: Entry(stamps(k.1), k.1)
  }

  /** The window is cut before the filter is applied, so an older match can fall out of it. */
  function FilterByTopic(db: Db, sub: Sub, window: seq<Entry>, filter: string): seq<Entry>
    requires forall e :: e in window ==> (sub.source, e.event) in db.log
  {
    if |window| == 0 then []
    else
      var before, e := FilterByTopic(db, sub, window[..|window| - 1], filter), window[|window| - 1];
      if MatchesTopicFilter(db.log[(sub.source, e.event)].topic, filter) then before + [e] else before
  }

  lemma {:induction false} FilterKeeps(db: Db, sub: Sub, window: seq<Entry>, filter: string)
    requires forall e :: e in window ==> (sub.source, e.event) in db.log
    ensures forall e :: e in FilterByTopic(db, sub, window, filter) <==>
      e in window && MatchesTopicFilter(db.log[(sub.source, e.event)].topic, filter)
    ensures |FilterByTopic(db, sub, window, filter)| <= |window|
    decreases |window|
  {
    if |window| > 0 {
      FilterKeeps(db, sub, window[..|window| - 1], filter);
      assert window == window[..|window| - 1] + [window[|window| - 1]];
    }
  }

  /** Both listings clamp the requested limit to 1..50. */
  function Capped(limit: int): nat {
    if limit < 1 then 1 else if limit > DELIVERY_LIST_LIMIT then DELIVERY_LIST_LIMIT else limit
  }

  ghost function ListDeliveries(db: Db, sub: Sub, stamps: EventId -> int, limit: int): seq<Entry>
  {
    Take(Newer, Received(db, sub, stamps), Capped(limit))
  }

  ghost function FailedWindow(db: Db, sub: Sub, stamps: EventId -> int, limit: int): (window: seq<Entry>)
    ensures forall e :: e in window ==> (sub.source, e.event) in db.log
  {
    TakeIsPrefix(Newer, Unreceived(db, sub, stamps), Capped(limit));
    Take(Newer, Unreceived(db, sub, stamps), Capped(limit))
  }

  ghost function ListFailedDeliveries(db: Db, sub: Sub, filter: string, stamps: EventId -> int, limit: int): seq<Entry>
  {
    FilterByTopic(db, sub, FailedWindow(db, sub, stamps, limit), filter)
  }

  /** On one state of the tables no event is listed both as delivered and as failed; everything listed as failed is a
    * logged match without a receipt; and the failed listing is complete whenever the unreceived log fits its window. */
  lemma ListingsAreDisjoint(db: Db, sub: Sub, filter: string, sent: EventId -> int, logged: EventId -> int, limit: int)
    ensures var delivered, failed := ListDeliveries(db, sub, sent, limit), ListFailedDeliveries(db, sub, filter, logged, limit);
      var n := if limit < 1 then 1 else if limit > 50 then 50 else limit;
      && (forall d, f :: d in delivered && f in failed ==> d.event != f.event)
      && |delivered| == (if |Received(db, sub, sent)| <= n then |Received(db, sub, sent)| else n)
      && (forall i, j :: 0 <= i < j < |delivered| ==>
            delivered[i].at > delivered[j].at || (delivered[i].at == delivered[j].at && delivered[i].event > delivered[j].event))
      && (forall f :: f in failed ==>
            (sub.source, f.event) in db.log && (sub, f.event) !in db.receipts && MatchesTopicFilter(db.log[(sub.source, f.event)].topic, filter))
      && |failed| <= n && (|Unreceived(db, sub, logged)| <= n ==>
            forall k :: k in db.log && k.0 == sub.source && (sub, k.1) !in db.receipts && MatchesTopicFilter(db.log[k].topic, filter) ==>
              Entry(logged(k.1), k.1) in failed)
  {
    TakeIsPrefix(Newer, Received(db, sub, sent), Capped(limit));
    TakeIsPrefix(Newer, Unreceived(db, sub, logged), Capped(limit));
    FilterKeeps(db, sub, FailedWindow(db, sub, logged, limit), filter);
  }

  // ----- The event tables as an object -----

  class EventStore {
    var sources: map<Source, bool>
    var log: map<(Source, EventId), Content>
    var subs: map<Sub, SubRow>
    var receipts: map<(Sub, EventId), Exec>
    var executions: map<Exec, Admission>

    ghost function Tables(): Db
      reads this
    {
      Db(sources, log, subs, receipts, executions)
    }

    constructor ()
      ensures Tables() == INITIAL.db
    {
      sources, log, subs, receipts, executions := map[], map[], map[], map[], map[];
    }

    method CreateSubscription(sub: Sub, row: SubRow) returns (created: bool)
      modifies this`subs
      ensures subs == if created then old(subs)[sub := row] else old(subs)
      ensures created <==> sub !in old(subs)
      ensures Tables() == Apply(old(Tables()), InsertSub(sub, row))
    {
      created := sub !in subs;
      if created {
        subs := subs[sub := row];
      }
    }

    method DeleteSubscription(sub: Sub)
      modifies this`subs, this`receipts
      ensures subs == old(subs) - {sub}
      ensures forall k :: k in receipts <==> k in old(receipts) && k.0 != sub
      ensures forall k :: k in receipts ==> receipts[k] == old(receipts)[k]
      ensures Tables() == Apply(old(Tables()), DropSub(sub))
    {
      receipts := map k | k in receipts && k.0 != sub :: receipts[k];
      subs := subs - {sub};
    }

    /** Nothing of the source is left: no row, no logged event, no subscription, no receipt of one; everything of other
      * sources is, and so is every Execution. Registering the source again starts from an empty log. */
    method DeleteEventSource(source: Source)
      modifies this`sources, this`log, this`subs, this`receipts
      ensures Tables() == Apply(old(Tables()), DropSource(source))
      ensures source !in sources && (forall k :: k in log ==> k.0 != source) && (forall t :: t in subs ==> t.source != source)
      ensures forall t, e :: t in old(subs) && t.source == source ==> (t, e) !in receipts
      ensures forall x :: x in old(sources) && x != source ==> x in sources && sources[x] == old(sources)[x]
      ensures forall k :: k in old(log) && k.0 != source ==> k in log && log[k] == old(log)[k]
      ensures forall t :: t in old(subs) && t.source != source ==> t in subs && subs[t] == old(subs)[t]
      ensures forall k :: k in old(receipts) && k.0.source != source ==> k in receipts && receipts[k] == old(receipts)[k]
    {
      receipts := map k | k in receipts && !(k.0 in subs && k.0.source == source) :: receipts[k];
      subs := map k | k in subs && k.source != source :: subs[k];
      log := map k | k in log && k.0 != source :: log[k];
      sources := sources - {source};
    }

    /** Accepted exactly if the source is there and enabled and the event is new or logged with equal topic, payload and
      * execution; then the log holds exactly this content and the answer says whether it did before. No other entry of
      * the log changes, and none at all on a refusal. */
    method EmitEvent(source: Source, event: EventId, content: Content, w: World) returns (outcome: Phase)
      modifies this`log
      ensures (Tables(), outcome) == Alone(old(Tables()), EmitLoad(source, event, content), w)
      ensures outcome ==
        if source !in sources then Refused("NOT_FOUND")
        else if !sources[source] then Refused("EVENT_SOURCE_DISABLED")
        else if (source, event) !in old(log) then Emitted(source, event, content, false)
        else
          var prior := old(log)[(source, event)];
          if prior.topic == content.topic && prior.payload == content.payload && prior.execution == content.execution
          then Emitted(source, event, content, true) else Refused("EVENT_CONFLICT")
      ensures outcome.Emitted? ==> (source, event) in log && log[(source, event)] == content
      ensures log.Keys == if outcome.Emitted? then old(log).Keys + {(source, event)} else old(log).Keys
      ensures forall k :: k in old(log) ==> log[k] == old(log)[k]
    {
      AloneStep(Tables(), EmitLoad(source, event, content), w);
      if source !in sources {
        return Refused("NOT_FOUND");
      }
      if !sources[source] {
        return Refused("EVENT_SOURCE_DISABLED");
      }
      AloneStep(Tables(), EmitInsert(source, event, content), w);
      if (source, event) !in log {
        log := log[(source, event) := content];
        return Emitted(source, event, content, false);
      }
      AloneStep(Tables(), EmitCompare(source, event, content), w);
      if log[(source, event)] != content {
        return Refused("EVENT_CONFLICT");
      }
      return Emitted(source, event, content, true);
    }

    /** The delivery of one event to one subscription, answered from the rows it finds. */
    method DispatchToSubscriber(sub: Sub, event: EventId, content: Content, w: World) returns (outcome: Phase)
      modifies this`receipts, this`executions
      ensures (Tables(), outcome) == Alone(old(Tables()), Fence(sub, event, content), w)
      ensures outcome == DispatchAnswer(old(Tables()), sub, event, content, w)
      ensures DispatchLeaves(old(Tables()), sub, event, content, outcome, Tables())
    {
      DispatchTable(Tables(), sub, event, content, w);
      AloneStep(Tables(), Fence(sub, event, content), w);
      if sub !in subs {
        return Refused("SUBSCRIPTION_GONE");
      }
      var row := subs[sub];
      if !row.enabled {
        return Refused("SUBSCRIPTION_DISABLED");
      }
      AloneStep(Tables(), Gates(sub, event, content, row), w);
      if !w.admits {
        return Refused("NOT_ADMITTED");
      }
      outcome := SubmitAndRecord(sub, event, content, row, w);
    }

    method SubmitAndRecord(sub: Sub, event: EventId, content: Content, row: SubRow, w: World) returns (outcome: Phase)
      modifies this`receipts, this`executions
      ensures (Tables(), outcome) == Alone(old(Tables()), Submit(sub, event, content, row), w)
    {
      var exec, admission := ExecOf(sub, event, row), AdmissionOf(content, row);
      var replayed := exec in executions;
      AloneStep(Tables(), Submit(sub, event, content, row), w);
      if replayed && executions[exec] != admission {
        return Refused("IDEMPOTENCY_CONFLICT");
      }
      if !replayed {
        executions := executions[exec := admission];
      }
      if w.submit == Held {
        return Refused("SUBMIT_HELD");
      }
      AloneStep(Tables(), Receipt(sub, event, exec, replayed), w);
      if (sub, event) !in receipts {
        receipts := receipts[(sub, event) := exec];
      }
      return Delivered(sub, event, exec, replayed);
    }

    /** Refused exactly if no matching event is logged or ten other subscriptions of the source have their receipt; else
      * the dispatch of the logged content. */
    method RetrySubscriptionDelivery(sub: Sub, event: EventId, filter: string, w: World) returns (outcome: Phase)
      modifies this`receipts, this`executions
      ensures (Tables(), outcome) == Alone(old(Tables()), RetryRead(sub, event, filter), w)
      ensures var logged, k := old(log), (sub.source, event);
        var others := set t | t in subs && t.source == sub.source && t != sub && (t, event) in old(receipts);
        if k !in logged || !MatchesTopicFilter(logged[k].topic, filter) then outcome == Refused("NOT_FOUND") && Tables() == old(Tables())
        else if |others| >= 10 then outcome == Refused("DELIVERY_BOUND_EXCEEDED") && Tables() == old(Tables())
        else
          && outcome == DispatchAnswer(old(Tables()), sub, event, logged[k], w)
          && DispatchLeaves(old(Tables()), sub, event, logged[k], outcome, Tables())
    {
      AloneStep(Tables(), RetryRead(sub, event, filter), w);
      if (sub.source, event) !in log || !MatchesTopicFilter(log[(sub.source, event)].topic, filter) {
        return Refused("NOT_FOUND");
      }
      var content := log[(sub.source, event)];
      AloneStep(Tables(), RetryBound(sub, event, content), w);
      var others := set t | t in subs && t.source == sub.source && t != sub && (t, event) in receipts;
      assert others == OtherReceipts(Tables(), sub, event);
      if |others| >= FANOUT_LIMIT {
        return Refused("DELIVERY_BOUND_EXCEEDED");
      }
      outcome := DispatchToSubscriber(sub, event, content, w);
    }
  }

}
