/** ExecutionHistory: the keyset walk from the newest row down, while submits and lifecycle steps interleave. */
module History {

  import opened Wrappers
  import opened Sets
  import opened Identity
  import opened Ledger
  import opened Submission
  import opened SubmissionSafety
  import opened Paging

  /** A row's place in the listing: its creation time and its 64-hex id read as a number. */
  datatype Position = Position(at: int, rank: nat)

  predicate Newer(a: Position, b: Position) {
    a.at > b.at || (a.at == b.at && a.rank > b.rank)
  }

  /** An empty status set means all statuses. */
  datatype Query = Query(caller: Principal, statuses: set<Status>, saga: Option<string>, startAt: Option<int>, endBefore: Option<int>)

  predicate Matches(row: Execution, q: Query) {
    && row.caller == q.caller
    && (q.statuses == {} || row.status in q.statuses)
    && (q.saga.Some? ==> row.saga == q.saga.value)
    && (q.startAt.Some? ==> row.createdAt >= q.startAt.value)
    && (q.endBefore.Some? ==> row.createdAt < q.endBefore.value)
  }

  function PositionOf(db: Db, id: Id, rank: Id -> nat): Position
    requires id in db.executions
  {
    Position(db.executions[id].createdAt, rank(id))
  }

  function Matching(db: Db, q: Query, rank: Id -> nat): set<Position> {
    set id | id in db.executions && Matches(db.executions[id], q) :: PositionOf(db, id, rank)
  }

  /** The caller's own rows, each filter that is set satisfied. */
  ghost predicate IsAsked(row: Execution, q: Query) {
    && row.caller.org == q.caller.org && row.caller.user == q.caller.user
    && (q.statuses != {} ==> row.status in q.statuses)
    && (q.saga == None || q.saga == Some(row.saga))
    && (q.startAt == None || q.startAt.value <= row.createdAt)
    && (q.endBefore == None || row.createdAt < q.endBefore.value)
  }

  /** Older, or as old with the smaller id. */
  ghost predicate ComesAfter(a: Position, b: Position) {
    b.at < a.at || (b.at == a.at && b.rank < a.rank)
  }

  /** The page read row by row: only rows that are asked for, newest first and past the cursor; and each of these that is
    * left out comes after the next cursor. */
  ghost predicate IsAnswer(db: Db, q: Query, rank: Id -> nat, cursor: Option<Position>, page: Page<Position>) {
    && (forall x :: x in page.rows ==>
          && (cursor.None? || ComesAfter(cursor.value, x))
          && exists id :: id in db.executions && IsAsked(db.executions[id], q) && x == Position(db.executions[id].createdAt, rank(id)))
    && (forall id :: id in db.executions && IsAsked(db.executions[id], q) ==>
          var x := Position(db.executions[id].createdAt, rank(id));
          || (cursor.Some? && !ComesAfter(cursor.value, x))
          || x in page.rows
          || (page.next.Some? && ComesAfter(page.next.value, x)))
    && (forall i, j :: 0 <= i < j < |page.rows| ==> ComesAfter(page.rows[i], page.rows[j]))
  }

  lemma PageIsAsked(db: Db, q: Query, rank: Id -> nat, cursor: Option<Position>, limit: nat, page: Page<Position>)
    requires limit > 0 && IsPage(Newer, Matching(db, q, rank), cursor, limit, page)
    ensures IsAnswer(db, q, rank, cursor, page)
  {
    forall id | id in db.executions && IsAsked(db.executions[id], q) ensures PositionOf(db, id, rank) in Matching(db, q, rank) {
      assert Matches(db.executions[id], q);
    }
  }

  /** One listing request. The SELECT answered with one row more than the limit; the page holds the next rows of the
    * query past the cursor, newest first, and says that there are more exactly if there are. */
  method ListHistory(ghost db: Db, ghost q: Query, ghost rank: Id -> nat, ghost cursor: Option<Position>, scanned: seq<Position>, limit: nat)
    returns (page: Page<Position>)
    requires 0 < limit <= 50
    requires IsScan(Newer, Beyond(Newer, Matching(db, q, rank), cursor), scanned, limit + 1)
    ensures IsPage(Newer, Matching(db, q, rank), cursor, limit, page)
    ensures page == PageOf(Newer, Matching(db, q, rank), cursor, limit)
    ensures IsAnswer(db, q, rank, cursor, page)
  {
    page := CutPage(Newer, Matching(db, q, rank), cursor, scanned, limit);
    PageIsAsked(db, q, rank, cursor, limit, page);
  }

  // ----- The walk over a growing table -----

  /** `shots[i]` is what matches at the moment of request i. */
  ghost predicate Growing(shots: seq<set<Position>>) {
    forall i, j :: 0 <= i <= j < |shots| ==> shots[i] <= shots[j]
  }

  /** Everything a client collects by following the next cursor from page to page. */
  ghost function Walk(shots: seq<set<Position>>, cursor: Option<Position>, limit: nat): seq<Position>
    requires limit > 0
    decreases |shots|
  {
    if |shots| == 0 then [] else
      var page := PageOf(Newer, shots[0], cursor, limit);
      page.rows + if page.hasMore then Walk(shots[1..], page.next, limit) else []
  }

  /** The walk reached a page without a next cursor. */
  ghost predicate Completes(shots: seq<set<Position>>, cursor: Option<Position>, limit: nat)
    requires limit > 0
    decreases |shots|
  {
    |shots| > 0 &&
    var page := PageOf(Newer, shots[0], cursor, limit);
    page.hasMore ==> Completes(shots[1..], page.next, limit)
  }

  lemma {:induction false} WalkIsOrdered(shots: seq<set<Position>>, cursor: Option<Position>, limit: nat)
    requires limit > 0
    ensures Ascending(Newer, Walk(shots, cursor, limit))
    ensures forall x :: x in Walk(shots, cursor, limit) ==> cursor.None? || Newer(cursor.value, x)
    decreases |shots|
  {
    if |shots| > 0 {
      var page := PageOf(Newer, shots[0], cursor, limit);
      PageIsExact(Newer, shots[0], cursor, limit);
      if page.hasMore {
        var rest := Walk(shots[1..], page.next, limit);
        WalkIsOrdered(shots[1..], page.next, limit);
        var last := page.rows[limit - 1];
        assert last in page.rows && page.next == Some(last);
        forall i, j | 0 <= i < j < |page.rows + rest| ensures Newer((page.rows + rest)[i], (page.rows + rest)[j]) {
          if i < limit <= j {
            assert rest[j - limit] in rest;
            assert i == limit - 1 || Newer(page.rows[i], page.rows[limit - 1]);
          }
        }
      }
    }
  }

  lemma {:induction false} WalkIsComplete(shots: seq<set<Position>>, cursor: Option<Position>, limit: nat, x: Position)
    requires limit > 0 && Growing(shots)
    requires Completes(shots, cursor, limit) && x in Beyond(Newer, shots[0], cursor)
    ensures x in Walk(shots, cursor, limit)
    decreases |shots|
  {
    var page := PageOf(Newer, shots[0], cursor, limit);
    PageIsExact(Newer, shots[0], cursor, limit);
    if page.hasMore && x !in page.rows {
      assert Growing(shots[1..]) by {
        forall i, j | 0 <= i <= j < |shots[1..]| ensures shots[1..][i] <= shots[1..][j] {
          assert shots[1..][i] == shots[i + 1] && shots[1..][j] == shots[j + 1];
        }
      }
      assert shots[0] <= shots[1];
      WalkIsComplete(shots[1..], page.next, limit, x);
    }
  }

  lemma {:induction false} WalkIsHonest(shots: seq<set<Position>>, cursor: Option<Position>, limit: nat, x: Position)
    requires limit > 0 && x in Walk(shots, cursor, limit)
    ensures exists i :: 0 <= i < |shots| && x in shots[i]
    decreases |shots|
  {
    var page := PageOf(Newer, shots[0], cursor, limit);
    PageIsExact(Newer, shots[0], cursor, limit);
    if x !in page.rows {
      WalkIsHonest(shots[1..], page.next, limit, x);
      var i :| 0 <= i < |shots[1..]| && x in shots[1..][i];
      assert x in shots[i + 1];
    } else {
      assert x in shots[0];
    }
  }

  lemma {:induction false} DistinctCount(s: seq<Position>)
    requires Ascending(Newer, s)
    ensures |set x | x in s| == |s|
    decreases |s|
  {
    if |s| > 0 {
      DistinctCount(s[1..]);
      assert (set x | x in s) == {s[0]} + (set x | x in s[1..]);
      assert s[0] !in s[1..] by {
        forall i | 0 <= i < |s[1..]| ensures s[1..][i] != s[0] {
          assert Newer(s[0], s[i + 1]);
        }
      }
    }
  }

  /** Nothing a page returned lies beyond its last row, and nothing beyond that row lay before the cursor. */
  lemma BeyondShrinks(rows: seq<Position>, cursor: Option<Position>, final: set<Position>)
    requires |rows| > 0 && Ascending(Newer, rows) && (cursor.Some? ==> Newer(cursor.value, rows[|rows| - 1]))
    ensures forall x :: x in Beyond(Newer, final, Some(rows[|rows| - 1])) ==> x in Beyond(Newer, final, cursor) && x !in rows
  {
    forall x | x in Beyond(Newer, final, Some(rows[|rows| - 1])) ensures x !in rows {
      forall i | 0 <= i < |rows| ensures rows[i] != x {
        assert i == |rows| - 1 || Newer(rows[i], rows[|rows| - 1]);
      }
    }
  }

  /** A page with a successor leaves at least `limit` fewer rows ahead of the reader, counted in the final table. */
  lemma PageConsumes(items: set<Position>, cursor: Option<Position>, limit: nat, final: set<Position>)
    requires limit > 0 && items <= final
    requires PageOf(Newer, items, cursor, limit).hasMore
    ensures |Beyond(Newer, final, PageOf(Newer, items, cursor, limit).next)| + limit <= |Beyond(Newer, final, cursor)|
    ensures |Beyond(Newer, final, cursor)| > limit
  {
    var rows := PageOf(Newer, items, cursor, limit).rows;
    var returned := set x | x in rows;
    PageIsExact(Newer, items, cursor, limit);
    FullPage(Newer, items, cursor, limit);
    assert rows[limit - 1] in rows;
    BeyondShrinks(rows, cursor, final);
    DistinctCount(rows);
    DisjointCount(Beyond(Newer, final, Some(rows[limit - 1])), returned, Beyond(Newer, final, cursor));
    SubsetCount(Beyond(Newer, items, cursor), Beyond(Newer, final, cursor));
  }

  ghost predicate Within(shots: seq<set<Position>>, final: set<Position>) {
    forall i :: 0 <= i < |shots| ==> shots[i] <= final
  }

  lemma TailWithin(shots: seq<set<Position>>, final: set<Position>)
    requires Within(shots, final) && |shots| > 0
    ensures shots[0] <= final && Within(shots[1..], final)
  {
    forall i | 0 <= i < |shots[1..]| ensures shots[1..][i] <= final {
      assert shots[1..][i] == shots[i + 1];
    }
  }

  lemma OneFewer(n: nat, limit: nat)
    requires n > 0
    ensures n * limit == (n - 1) * limit + limit
  {
  }

  /** So the walk ends: as many requests as the final rows need pages are enough, however the rows arrived. */
  lemma {:induction false} WalkTerminates(shots: seq<set<Position>>, cursor: Option<Position>, limit: nat, final: set<Position>)
    requires limit > 0 && |shots| > 0
    requires Within(shots, final)
    requires |Beyond(Newer, final, cursor)| <= |shots| * limit
    ensures Completes(shots, cursor, limit)
    decreases |shots|
  {
    var page := PageOf(Newer, shots[0], cursor, limit);
    TailWithin(shots, final);
    if page.hasMore {
      PageConsumes(shots[0], cursor, limit, final);
      OneFewer(|shots|, limit);
      WalkTerminates(shots[1..], page.next, limit, final);
    }
  }

  // ----- The walk inside the running system -----

  ghost predicate Injective(rank: Id -> nat) {
    forall a, b :: rank(a) == rank(b) ==> a == b
  }

  /** What matches at the start and after each of the interleaved runs. */
  ghost function Shots(s: State, between: seq<seq<Event>>, q: Query, rank: Id -> nat): seq<set<Position>>
    decreases |between|
  {
    [Matching(s.db, q, rank)] + if |between| == 0 then [] else Shots(Run(s, between[0]), between[1..], q, rank)
  }

  /** Without a status filter a matching row keeps matching at the same place, whatever runs. */
  lemma MatchesStay(s: State, es: seq<Event>, q: Query, rank: Id -> nat)
    requires Inv(s) && q.statuses == {}
    ensures Matching(s.db, q, rank) <= Matching(Run(s, es).db, q, rank)
  {
    RunExecutesTrace(s, es);
    RunExtends(s.db, Trace(s, es));
    var s' := Run(s, es);
    forall id | id in s.db.executions && Matches(s.db.executions[id], q)
      ensures PositionOf(s.db, id, rank) in Matching(s'.db, q, rank)
    {
      assert SameIdentity(s.db.executions[id], s'.db.executions[id]);
      assert PositionOf(s'.db, id, rank) == PositionOf(s.db, id, rank);
    }
  }

  lemma {:induction false} ShotsGrow(s: State, between: seq<seq<Event>>, q: Query, rank: Id -> nat)
    requires Inv(s) && q.statuses == {}
    ensures Growing(Shots(s, between, q, rank))
    decreases |between|
  {
    if |between| > 0 {
      var s', rest := Run(s, between[0]), Shots(Run(s, between[0]), between[1..], q, rank);
      RunKeepsInv(s, between[0]);
      MatchesStay(s, between[0], q, rank);
      ShotsGrow(s', between[1..], q, rank);
      assert rest[0] == Matching(s'.db, q, rank);
      var shots := Shots(s, between, q, rank);
      forall i, j | 0 <= i <= j < |shots| ensures shots[i] <= shots[j] {
        if i > 0 {
          assert shots[i] == rest[i - 1] && shots[j] == rest[j - 1];
        } else if j > 0 {
          assert shots[j] == rest[j - 1] && rest[0] <= rest[j - 1];
        }
      }
    }
  }

  /** Following the next cursor to its end while anything runs in between returns, newest first and without a repeat,
    * every row that matched when the walk began. */
  lemma HistoryWalk(before: seq<Event>, between: seq<seq<Event>>, q: Query, rank: Id -> nat, limit: nat)
    requires Injective(rank) && limit > 0 && q.statuses == {}
    requires Completes(Shots(Run(INITIAL, before), between, q, rank), None, limit)
    ensures var s := Run(INITIAL, before);
      var walk := Walk(Shots(s, between, q, rank), None, limit);
      && Ascending(Newer, walk)
      && (forall i, j :: 0 <= i < j < |walk| ==> walk[i] != walk[j])
      && (forall id :: id in s.db.executions && Matches(s.db.executions[id], q) ==> PositionOf(s.db, id, rank) in walk)
      && (forall a, b :: a in s.db.executions && b in s.db.executions && PositionOf(s.db, a, rank) == PositionOf(s.db, b, rank) ==> a == b)
  {
    var s := Run(INITIAL, before);
    var shots := Shots(s, between, q, rank);
    InitialInv();
    RunKeepsInv(INITIAL, before);
    ShotsGrow(s, between, q, rank);
    WalkIsOrdered(shots, None, limit);
    forall id | id in s.db.executions && Matches(s.db.executions[id], q)
      ensures PositionOf(s.db, id, rank) in Walk(shots, None, limit)
    {
      WalkIsComplete(shots, None, limit, PositionOf(s.db, id, rank));
    }
  }

}
