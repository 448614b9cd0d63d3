/** The app-table change feed: writes stamp their row past every stamp in the table, and a poller follows the
  * (updated_at, id) keyset with the token of the last page. */
module ChangeFeed {

  import opened Wrappers
  import opened Paging

  const MAX_ROWS := 500

  type RowId = nat

  datatype Row = Row(data: string, createdAt: int, stamp: int)

  /** A row's place on the feed. */
  datatype Pos = Pos(stamp: int, id: RowId)

  predicate Before(a: Pos, b: Pos) {
    a.stamp < b.stamp || (a.stamp == b.stamp && a.id < b.id)
  }

  predicate After(a: Pos, b: Pos) {
    Before(b, a)
  }

  function Positions(rows: map<RowId, Row>): set<Pos> {
    set id | id in rows :: Pos(rows[id].stamp, id)
  }

  /** MAX(updated_at). */
  ghost function Peak(rows: map<RowId, Row>): (peak: int)
    requires rows != map[]
    ensures exists id :: id in rows && rows[id].stamp == peak
    ensures forall id :: id in rows ==> rows[id].stamp <= peak
  {
    var some :| some in rows;
    assert Pos(rows[some].stamp, some) in Positions(rows);
    var last := First(After, Positions(rows));
    assert forall id :: id in rows ==> Pos(rows[id].stamp, id) in Positions(rows);
    last.stamp
  }

  /** Now, or one millisecond past the peak when the clock is not past it. */
  ghost function NextStamp(rows: map<RowId, Row>, now: int): int {
    if rows != map[] && Peak(rows) >= now then Peak(rows) + 1 else now
  }

  lemma NextStampIsAhead(rows: map<RowId, Row>, now: int)
    ensures now <= NextStamp(rows, now)
    ensures forall id :: id in rows ==> rows[id].stamp < NextStamp(rows, now)
  {
  }

  // ----- One table, its serial writers and one poller -----

  /** `stamps` lists the stamp of every write so far, `used` every row id ever minted, `missed` the rows whose last write
    * landed behind the token it met; no client reads these. */
  datatype State = State(
    rows: map<RowId, Row>, revision: nat,
    view: map<RowId, Row>, token: Option<Pos>,
    stamps: seq<int>, used: set<RowId>, missed: set<RowId>)

  datatype Event =
    | Insert(id: RowId, data: string, now: int)
    | Patch(id: RowId, data: string, now: int)
    | Delete(id: RowId)
    | Poll(limit: nat)

  const INITIAL := State(map[], 0, map[], None, [], {}, {})

  ghost function PollPage(rows: map<RowId, Row>, token: Option<Pos>, limit: nat): Page<Pos>
    requires limit > 0
  {
    PageOf(Before, Positions(rows), token, limit)
  }

  /** Each change carries the row's data and both times. */
  function Returned(rows: map<RowId, Row>, page: seq<Pos>): map<RowId, Row> {
    map id | id in rows && Pos(rows[id].stamp, id) in page :: rows[id]
  }

  predicate IsPast(token: Option<Pos>, p: Pos) {
    token.None? || Before(token.value, p)
  }

  function Missed(missed: set<RowId>, token: Option<Pos>, p: Pos): set<RowId> {
    if IsPast(token, p) then missed - {p.id} else missed + {p.id}
  }

  /** The token of the last row on the page; a quiet page keeps the old one. */
  function NextToken(page: seq<Pos>, token: Option<Pos>): Option<Pos> {
    if |page| > 0 then Some(page[|page| - 1]) else token
  }

  ghost predicate Enabled(s: State, e: Event) {
    match e
    case Insert(id, _, _) => id !in s.used && |s.rows| < MAX_ROWS
    case Patch(id, _, _) => id in s.rows
    case Delete(id) => id in s.rows
    case Poll(limit) => limit > 0
  }

  ghost function Step(s: State, e: Event): State {
    if !Enabled(s, e) then s else
    match e
    case Insert(id, data, now) =>
      var stamp := NextStamp(s.rows, now);
      s.(rows := s.rows[id := Row(data, stamp, stamp)], revision := s.revision + 1, stamps := s.stamps + [stamp],
         used := s.used + {id}, missed := Missed(s.missed, s.token, Pos(stamp, id)))
    case Patch(id, data, now) =>
      var stamp := NextStamp(s.rows, now);
      s.(rows := s.rows[id := Row(data, s.rows[id].createdAt, stamp)], revision := s.revision + 1, stamps := s.stamps + [stamp],
         missed := Missed(s.missed, s.token, Pos(stamp, id)))
    case Delete(id) => s.(rows := s.rows - {id}, revision := s.revision + 1, missed := s.missed - {id})
    case Poll(limit) =>
      var page := PollPage(s.rows, s.token, limit);
      s.(view := s.view + Returned(s.rows, page.rows), token := NextToken(page.rows, s.token))
  }

  ghost function Run(s: State, es: seq<Event>): State
    decreases |es|
  {
    if |es| == 0 then s else Run(Step(s, es[0]), es[1..])
  }

  predicate NoDeletes(es: seq<Event>) {
    forall i :: 0 <= i < |es| ==> !es[i].Delete?
  }

  // ----- Completeness -----

  predicate Increasing(stamps: seq<int>) {
    forall i, j :: 0 <= i < j < |stamps| ==> stamps[i] < stamps[j]
  }

  /** Every row is either still ahead of the poller or shown as it is. */
  ghost predicate Inv(s: State) {
    && Increasing(s.stamps)
    && (s.rows == map[] <==> |s.stamps| == 0)
    && (|s.stamps| > 0 ==> s.stamps[|s.stamps| - 1] == Peak(s.rows))
    && s.rows.Keys <= s.used
    && (s.token.Some? ==> s.rows != map[] && s.token.value.stamp <= Peak(s.rows))
    && s.view.Keys <= s.rows.Keys
    && (forall id :: id in s.rows ==>
          (s.token.Some? && !Before(s.token.value, Pos(s.rows[id].stamp, id)) ==> id in s.view && s.view[id] == s.rows[id]))
    && (s.token.None? ==> s.view == map[])
  }

  lemma WriteKeepsInv(s: State, id: RowId, row: Row, now: int)
    requires Inv(s) && row.stamp == NextStamp(s.rows, now)
    ensures Inv(s.(rows := s.rows[id := row], revision := s.revision + 1, stamps := s.stamps + [row.stamp],
                   used := s.used + {id}, missed := Missed(s.missed, s.token, Pos(row.stamp, id))))
  {
    var rows' := s.rows[id := row];
    NextStampIsAhead(s.rows, now);
    assert id in rows';
    assert Peak(rows') == row.stamp by {
      assert rows'[id].stamp == row.stamp;
    }
  }

  /** The poller's view after a page, row by row. */
  lemma PollShows(rows: map<RowId, Row>, view: map<RowId, Row>, token: Option<Pos>, limit: nat, id: RowId)
    requires limit > 0 && id in rows
    requires token.Some? && !Before(token.value, Pos(rows[id].stamp, id)) ==> id in view && view[id] == rows[id]
    ensures var page := PollPage(rows, token, limit);
      var view', token' := view + Returned(rows, page.rows), NextToken(page.rows, token);
      !page.hasMore || (token'.Some? && !Before(token'.value, Pos(rows[id].stamp, id))) ==> id in view' && view'[id] == rows[id]
  {
    var p, page := Pos(rows[id].stamp, id), PollPage(rows, token, limit);
    PageIsExact(Before, Positions(rows), token, limit);
    assert p in Positions(rows);
    if token.None? || Before(token.value, p) {
      assert p in Beyond(Before, Positions(rows), token);
      if page.hasMore && p !in page.rows {
        assert Before(page.next.value, p);
        assert NextToken(page.rows, token) == page.next;
      }
    }
  }

  /** The token only moves to a row of the table, so it never passes the peak. */
  lemma TokenStaysBelowPeak(rows: map<RowId, Row>, token: Option<Pos>, limit: nat)
    requires limit > 0
    requires token.Some? ==> rows != map[] && token.value.stamp <= Peak(rows)
    ensures var token' := NextToken(PollPage(rows, token, limit).rows, token);
      token'.Some? ==> rows != map[] && token'.value.stamp <= Peak(rows)
  {
    var page := PollPage(rows, token, limit);
    PageIsExact(Before, Positions(rows), token, limit);
    if |page.rows| > 0 {
      assert page.rows[|page.rows| - 1] in page.rows;
    }
  }

  lemma PollKeepsInv(s: State, limit: nat)
    requires Inv(s) && limit > 0
    ensures Inv(Step(s, Poll(limit)))
    ensures !PollPage(s.rows, s.token, limit).hasMore ==> Step(s, Poll(limit)).view == s.rows
  {
    TokenStaysBelowPeak(s.rows, s.token, limit);
    forall id | id in s.rows
      ensures var page := PollPage(s.rows, s.token, limit);
        var view', token' := s.view + Returned(s.rows, page.rows), NextToken(page.rows, s.token);
        !page.hasMore || (token'.Some? && !Before(token'.value, Pos(s.rows[id].stamp, id))) ==> id in view' && view'[id] == s.rows[id]
    {
      PollShows(s.rows, s.view, s.token, limit, id);
    }
  }

  lemma StepKeepsInv(s: State, e: Event)
    requires Inv(s) && !e.Delete?
    ensures Inv(Step(s, e))
  {
    if Enabled(s, e) {
      match e
      case Insert(id, data, now) => WriteKeepsInv(s, id, Row(data, NextStamp(s.rows, now), NextStamp(s.rows, now)), now);
      case Patch(id, data, now) =>
        WriteKeepsInv(s, id, Row(data, s.rows[id].createdAt, NextStamp(s.rows, now)), now);
        assert s.used + {id} == s.used;
      case Poll(limit) => PollKeepsInv(s, limit);
    }
  }

  lemma {:induction false} RunKeepsInv(s: State, es: seq<Event>)
    requires Inv(s) && NoDeletes(es)
    ensures Inv(Run(s, es))
    decreases |es|
  {
    if |es| > 0 {
      StepKeepsInv(s, es[0]);
      assert NoDeletes(es[1..]) by {
        forall i | 0 <= i < |es[1..]| ensures !es[1..][i].Delete? {
          assert es[1..][i] == es[i + 1];
        }
      }
      RunKeepsInv(Step(s, es[0]), es[1..]);
    }
  }

  /** In every run of inserts, patches and polls without deletes, under any clock, each write is stamped past all earlier
    * writes, and the poller's view is the table whenever a page reports nothing more. */
  lemma FeedIsComplete(es: seq<Event>, limit: nat)
    requires NoDeletes(es) && limit > 0
    ensures Increasing(Run(INITIAL, es).stamps)
    ensures var s := Run(INITIAL, es);
      !PollPage(s.rows, s.token, limit).hasMore ==> Step(s, Poll(limit)).view == s.rows
  {
    RunKeepsInv(INITIAL, es);
    PollKeepsInv(Run(INITIAL, es), limit);
  }

  // ----- What a delete does -----

  /** A write is still ahead of a poller exactly when the table keeps a stamp at or past the token's, or the clock is past
    * it, or its own stamp ties with the token and its row id is larger. Without deletes the first always holds. */
  lemma WriteIsAheadExactly(rows: map<RowId, Row>, token: Pos, id: RowId, now: int)
    ensures Before(token, Pos(NextStamp(rows, now), id)) <==>
      || (rows != map[] && Peak(rows) >= token.stamp)
      || now > token.stamp
      || (id > token.id && (now == token.stamp || (rows != map[] && now <= Peak(rows) == token.stamp - 1)))
  {
    if rows != map[] && Peak(rows) >= now {
      assert NextStamp(rows, now) == Peak(rows) + 1;
    }
  }

  /** A live row whose last write landed behind the token; what the poller shows of it, if anything, is older. */
  ghost predicate Stale(s: State, id: RowId) {
    && id in s.rows && s.token.Some? && !Before(s.token.value, Pos(s.rows[id].stamp, id))
    && (id in s.view ==> s.view[id].stamp < s.rows[id].stamp)
  }

  /** A live row the poller is still to meet, or shows as it is. */
  ghost predicate Shown(s: State, id: RowId) {
    && id in s.rows
    && (IsPast(s.token, Pos(s.rows[id].stamp, id)) || (id in s.view && s.view[id] == s.rows[id]))
    && (id in s.view ==> s.view[id].stamp <= s.rows[id].stamp)
  }

  /** Deletes or not: every live row is one or the other, and `missed` tells which. */
  ghost predicate RowsOk(s: State) {
    && s.missed <= s.rows.Keys && s.rows.Keys <= s.used && s.view.Keys <= s.used
    && (forall id :: id in s.rows ==> if id in s.missed then Stale(s, id) else Shown(s, id))
  }

  /** The token only moves on. */
  lemma TokenMovesOn(rows: map<RowId, Row>, token: Option<Pos>, limit: nat)
    requires limit > 0
    ensures var token' := NextToken(PollPage(rows, token, limit).rows, token);
      token.Some? ==> token'.Some? && !Before(token'.value, token.value)
  {
    var page := PollPage(rows, token, limit);
    PageIsExact(Before, Positions(rows), token, limit);
    if |page.rows| > 0 {
      assert page.rows[|page.rows| - 1] in page.rows;
    }
  }

  /** A page only shows rows past the token. */
  lemma PageIsPast(rows: map<RowId, Row>, token: Option<Pos>, limit: nat, id: RowId)
    requires limit > 0 && id in Returned(rows, PollPage(rows, token, limit).rows)
    ensures IsPast(token, Pos(rows[id].stamp, id))
  {
    PageIsExact(Before, Positions(rows), token, limit);
  }

  lemma PollKeepsStale(s: State, limit: nat, id: RowId)
    requires Stale(s, id) && limit > 0
    ensures Stale(Step(s, Poll(limit)), id)
  {
    var page := PollPage(s.rows, s.token, limit);
    TokenMovesOn(s.rows, s.token, limit);
    if id in Returned(s.rows, page.rows) {
      PageIsPast(s.rows, s.token, limit, id);
    }
  }

  lemma PollKeepsShown(s: State, limit: nat, id: RowId)
    requires Shown(s, id) && limit > 0
    ensures Shown(Step(s, Poll(limit)), id)
    ensures !PollPage(s.rows, s.token, limit).hasMore ==> id in Step(s, Poll(limit)).view && Step(s, Poll(limit)).view[id] == s.rows[id]
  {
    PollShows(s.rows, s.view, s.token, limit, id);
  }

  /** A write leaves every other row as it was and puts its own where `missed` says. */
  lemma WriteKeepsRows(s: State, id: RowId, row: Row, now: int, s': State)
    requires RowsOk(s) && row.stamp == NextStamp(s.rows, now) && (id in s.rows || id !in s.used)
    requires s'.rows == s.rows[id := row] && s'.view == s.view && s'.token == s.token && s'.used == s.used + {id}
    requires s'.missed == Missed(s.missed, s.token, Pos(row.stamp, id))
    ensures RowsOk(s')
  {
    NextStampIsAhead(s.rows, now);
    assert id in s.view ==> id in s.rows && s.view[id].stamp <= s.rows[id].stamp;
    forall x | x in s'.rows ensures if x in s'.missed then Stale(s', x) else Shown(s', x) {
      assert x != id ==> x in s.rows && (x in s'.missed <==> x in s.missed);
    }
  }

  lemma StepKeepsRows(s: State, e: Event)
    requires RowsOk(s)
    ensures RowsOk(Step(s, e))
  {
    if Enabled(s, e) {
      match e
      case Insert(id, data, now) => WriteKeepsRows(s, id, Row(data, NextStamp(s.rows, now), NextStamp(s.rows, now)), now, Step(s, e));
      case Patch(id, data, now) =>
        assert s.used + {id} == s.used;
        WriteKeepsRows(s, id, Row(data, s.rows[id].createdAt, NextStamp(s.rows, now)), now, Step(s, e));
      case Delete(id) =>
      case Poll(limit) =>
        forall id | id in s.rows ensures if id in s.missed then Stale(Step(s, e), id) else Shown(Step(s, e), id) {
          if id in s.missed {
            PollKeepsStale(s, limit, id);
          } else {
            PollKeepsShown(s, limit, id);
          }
        }
    }
  }

  lemma {:induction false} RunKeepsRows(s: State, es: seq<Event>)
    requires RowsOk(s)
    ensures RowsOk(Run(s, es))
    decreases |es|
  {
    if |es| > 0 {
      StepKeepsRows(s, es[0]);
      RunKeepsRows(Step(s, es[0]), es[1..]);
    }
  }

  /** In every run, deletes included and under any clock: once a page reports nothing more, the poller shows a live row as
    * it is exactly when the row's last write did not land behind the token it met. */
  lemma FeedIsExact(es: seq<Event>, limit: nat, id: RowId)
    requires limit > 0 && id in Run(INITIAL, es).rows
    requires !PollPage(Run(INITIAL, es).rows, Run(INITIAL, es).token, limit).hasMore
    ensures var s := Run(INITIAL, es);
      var view := Step(s, Poll(limit)).view;
      id in view && view[id] == s.rows[id] <==> id !in s.missed
  {
    var s := Run(INITIAL, es);
    RunKeepsRows(INITIAL, es);
    if id in s.missed {
      PollKeepsStale(s, limit, id);
    } else {
      PollKeepsShown(s, limit, id);
    }
  }

  predicate Leaves(es: seq<Event>, id: RowId) {
    forall i :: 0 <= i < |es| ==> !((es[i].Patch? || es[i].Delete?) && es[i].id == id)
  }

  lemma StepKeepsStale(s: State, e: Event, id: RowId)
    requires RowsOk(s) && Stale(s, id) && !((e.Patch? || e.Delete?) && e.id == id)
    ensures Stale(Step(s, e), id) && Step(s, e).rows[id] == s.rows[id]
  {
    if Enabled(s, e) && e.Poll? {
      PollKeepsStale(s, e.limit, id);
    }
  }

  /** A row written behind the token stays stale, however often the client polls and whatever is inserted, patched and
    * deleted meanwhile, until the row itself is written or deleted. */
  lemma {:induction false} BehindStaysHidden(s: State, es: seq<Event>, id: RowId)
    requires RowsOk(s) && Stale(s, id) && Leaves(es, id)
    ensures Stale(Run(s, es), id) && Run(s, es).rows[id] == s.rows[id]
    ensures id !in s.view ==> id !in Run(s, es).view
    decreases |es|
  {
    if |es| > 0 {
      StepKeepsStale(s, es[0], id);
      StepKeepsRows(s, es[0]);
      if id !in s.view {
        StaysUnseen(s, es[0], id);
      }
      assert Leaves(es[1..], id) by {
        forall i | 0 <= i < |es[1..]| ensures !((es[1..][i].Patch? || es[1..][i].Delete?) && es[1..][i].id == id) {
          assert es[1..][i] == es[i + 1];
        }
      }
      BehindStaysHidden(Step(s, es[0]), es[1..], id);
    }
  }

  lemma StaysUnseen(s: State, e: Event, id: RowId)
    requires Stale(s, id) && id !in s.view
    ensures id !in Step(s, e).view
  {
    if Enabled(s, e) && e.Poll? && id in Returned(s.rows, PollPage(s.rows, s.token, e.limit).rows) {
      PageIsPast(s.rows, s.token, e.limit, id);
    }
  }

  /** It happens: a poller has seen the newest row, that row is deleted, and another row is inserted within the same
    * millisecond under a smaller id. */
  const LOST: seq<Event> := [Insert(1, "a", 10), Poll(5), Delete(1), Insert(0, "b", 10)]

  const SEEN := State(map[1 := Row("a", 10, 10)], 1, map[1 := Row("a", 10, 10)], Some(Pos(10, 1)), [10], {1}, {})

  lemma PollSeesTheRow()
    ensures Step(SEEN.(view := map[], token := None), Poll(5)) == SEEN
  {
    var rows := SEEN.rows;
    assert Positions(rows) == {Pos(10, 1)} by {
      assert Pos(rows[1].stamp, 1) in Positions(rows);
    }
    PageOfOne(Before, Pos(10, 1), 5);
    assert PollPage(rows, None, 5) == Page([Pos(10, 1)], false, None);
    assert Returned(rows, [Pos(10, 1)]) == rows;
    assert map[] + rows == rows;
  }

  lemma RunFour(s: State, a: Event, b: Event, c: Event, d: Event)
    ensures Run(s, [a, b, c, d]) == Step(Step(Step(Step(s, a), b), c), d)
  {
    assert [a, b, c, d][1..] == [b, c, d] && [b, c, d][1..] == [c, d] && [c, d][1..] == [d] && [d][1..] == [];
    assert Run(Step(Step(Step(s, a), b), c), [d]) == Step(Step(Step(Step(s, a), b), c), d);
    assert Run(Step(Step(s, a), b), [c, d]) == Run(Step(Step(Step(s, a), b), c), [d]);
    assert Run(Step(s, a), [b, c, d]) == Run(Step(Step(s, a), b), [c, d]);
  }

  lemma DeleteHidesLaterInsert(es: seq<Event>)
    requires Leaves(es, 0)
    ensures var s := Run(Run(INITIAL, LOST), es); 0 in s.rows && 0 !in s.view
  {
    RunFour(INITIAL, LOST[0], LOST[1], LOST[2], LOST[3]);
    assert Step(INITIAL, LOST[0]) == SEEN.(view := map[], token := None);
    PollSeesTheRow();
    var s3 := Step(SEEN, LOST[2]);
    assert s3.rows == map[];
    var s4 := Step(s3, LOST[3]);
    assert s4.rows == map[0 := Row("b", 10, 10)];
    RunKeepsRows(INITIAL, LOST);
    BehindStaysHidden(s4, es, 0);
  }

  // ----- The revision -----

  /** The revision is what tells a poller about deletes: it never goes back, and as long as it stands still the rows do. */
  lemma {:induction false} RevisionDetects(s: State, es: seq<Event>)
    ensures Run(s, es).revision >= s.revision
    ensures Run(s, es).revision == s.revision ==> Run(s, es).rows == s.rows
    decreases |es|
  {
    if |es| > 0 {
      RevisionDetects(Step(s, es[0]), es[1..]);
    }
  }

  // ----- The table as an object -----

  class AppTable {
    var rows: map<RowId, Row>
    var revision: nat

    constructor ()
      ensures rows == map[] && revision == 0
    {
      rows, revision := map[], 0;
    }

    /** SELECT MAX(updated_at), then now or the peak plus one millisecond. */
    method NextAppStamp(now: int) returns (stamp: int)
      ensures stamp == NextStamp(rows, now)
      ensures forall id :: id in rows ==> rows[id].stamp < stamp
    {
      var todo := rows.Keys;
      var peak: Option<int> := None;
      while todo != {}
        invariant todo <= rows.Keys
        invariant peak.None? <==> todo == rows.Keys
        invariant peak.Some? ==> exists id :: id in rows && rows[id].stamp == peak.value
        invariant forall id :: id in rows.Keys - todo ==> rows[id].stamp <= peak.value
        decreases todo
      {
        var id :| id in todo;
        if peak.None? || rows[id].stamp > peak.value {
          peak := Some(rows[id].stamp);
        }
        todo := todo - {id};
      }
      assert peak.None? <==> rows == map[];
      stamp := if peak.Some? && peak.value >= now then peak.value + 1 else now;
    }

    method InsertTableRow(id: RowId, data: string, now: int) returns (inserted: bool)
      requires id !in rows
      modifies this
      ensures inserted <==> |old(rows)| < 500
      ensures inserted ==> rows == old(rows)[id := Row(data, NextStamp(old(rows), now), NextStamp(old(rows), now))]
      ensures inserted ==> revision == old(revision) + 1
      ensures !inserted ==> rows == old(rows) && revision == old(revision)
    {
      if |rows| >= MAX_ROWS {
        return false;
      }
      var stamp := NextAppStamp(now);
      rows := rows[id := Row(data, stamp, stamp)];
      revision := revision + 1;
      return true;
    }

    method PatchTableRow(id: RowId, data: string, now: int) returns (patched: bool)
      modifies this
      ensures patched <==> id in old(rows)
      ensures patched ==> rows == old(rows)[id := Row(data, old(rows)[id].createdAt, NextStamp(old(rows), now))]
      ensures patched ==> revision == old(revision) + 1
      ensures !patched ==> rows == old(rows) && revision == old(revision)
    {
      if id !in rows {
        return false;
      }
      var stamp := NextAppStamp(now);
      rows := rows[id := rows[id].(data := data, stamp := stamp)];
      revision := revision + 1;
      return true;
    }

    method DeleteTableRow(id: RowId) returns (deleted: bool)
      modifies this
      ensures deleted <==> id in old(rows)
      ensures rows == old(rows) - {id}
      ensures revision == if deleted then old(revision) + 1 else old(revision)
    {
      deleted := id in rows;
      if deleted {
        rows := rows - {id};
        revision := revision + 1;
      }
    }

    /** The scan answered with one row more than the limit. The changes are the stored data of the next rows past the
      * token; without `hasMore` nothing past the token is left out, and with it whatever is left out lies past the new
      * token. A quiet page keeps its token. */
    method PollAppTableChanges(token: Option<Pos>, limit: nat, scanned: seq<Pos>)
      returns (changes: map<RowId, Row>, hasMore: bool, next: Option<Pos>)
      requires limit > 0 && IsScan(Before, Beyond(Before, Positions(rows), token), scanned, limit + 1)
      ensures forall id :: id in changes ==> id in rows && changes[id] == rows[id] && IsPast(token, Pos(rows[id].stamp, id))
      ensures forall id :: id in rows && IsPast(token, Pos(rows[id].stamp, id)) && id !in changes ==>
        hasMore && next.Some? && Before(next.value, Pos(rows[id].stamp, id))
      ensures forall id :: id in changes ==> next.Some? && !Before(next.value, Pos(rows[id].stamp, id))
      ensures hasMore <==> |Beyond(Before, Positions(rows), token)| > limit
      ensures changes == map[] ==> next == token && !hasMore
      ensures changes == Returned(rows, PollPage(rows, token, limit).rows) && next == NextToken(PollPage(rows, token, limit).rows, token)
      ensures hasMore == PollPage(rows, token, limit).hasMore
    {
      var page := CutPage(Before, Positions(rows), token, scanned, limit);
      PageShows(rows, token, limit, page);
      hasMore := page.hasMore;
      changes := Returned(rows, page.rows);
      next := NextToken(page.rows, token);
    }
  }

  /** A page read row by row. */
  lemma PageShows(rows: map<RowId, Row>, token: Option<Pos>, limit: nat, page: Page<Pos>)
    requires limit > 0 && IsPage(Before, Positions(rows), token, limit, page)
    ensures var changes, next := Returned(rows, page.rows), NextToken(page.rows, token);
      && (forall id :: id in changes ==> IsPast(token, Pos(rows[id].stamp, id)) && next.Some? && !Before(next.value, Pos(rows[id].stamp, id)))
      && (forall id :: id in rows && IsPast(token, Pos(rows[id].stamp, id)) && id !in changes ==>
            page.hasMore && next.Some? && Before(next.value, Pos(rows[id].stamp, id)))
      && (changes == map[] ==> next == token && !page.hasMore)
  {
    var changes, next := Returned(rows, page.rows), NextToken(page.rows, token);
    forall id | id in rows && IsPast(token, Pos(rows[id].stamp, id)) && id !in changes
      ensures page.hasMore && next.Some? && Before(next.value, Pos(rows[id].stamp, id))
    {
      assert Pos(rows[id].stamp, id) in Beyond(Before, Positions(rows), token);
    }
    if |page.rows| > 0 {
      var p := page.rows[0];
      assert p in page.rows && p in Positions(rows);
      assert p.id in changes;
    }
  }

}
