/** `SELECT … ORDER BY … LIMIT n` over a set of row positions, and keyset pages built from it. */
module Paging {

  import opened Wrappers

  /** A strict total order: what ORDER BY over a unique key induces. */
  ghost predicate TotalOrder<T(!new)>(before: (T, T) -> bool) {
    && (forall a :: !before(a, a))
    && (forall a, b :: a == b || before(a, b) || before(b, a))
    && (forall a, b, c :: before(a, b) && before(b, c) ==> before(a, c))
  }

  ghost predicate IsFirst<T(!new)>(before: (T, T) -> bool, items: set<T>, x: T) {
    x in items && forall y :: y in items ==> y == x || before(x, y)
  }

  lemma {:induction false} HasFirst<T(!new)>(before: (T, T) -> bool, items: set<T>)
    requires TotalOrder(before) && items != {}
    ensures exists x :: IsFirst(before, items, x)
    decreases |items|
  {
    var x :| x in items;
    if items == {x} {
      assert IsFirst(before, items, x);
    } else {
      HasFirst(before, items - {x});
      var y :| IsFirst(before, items - {x}, y);
      assert y in items - {x} && forall z :: z in items - {x} ==> z == y || before(y, z);
      var first := if before(x, y) then x else y;
      forall z | z in items ensures z == first || before(first, z) {
        assert z == x || z in items - {x};
      }
      assert IsFirst(before, items, first);
    }
  }

  ghost function First<T(!new)>(before: (T, T) -> bool, items: set<T>): (x: T)
    requires TotalOrder(before) && items != {}
    ensures IsFirst(before, items, x)
  {
    HasFirst(before, items);
    var x :| IsFirst(before, items, x);
    x
  }

  ghost function Sorted<T(!new)>(before: (T, T) -> bool, items: set<T>): seq<T>
    requires TotalOrder(before)
    decreases |items|
  {
    if items == {} then [] else
      var x := First(before, items);
      [x] + Sorted(before, items - {x})
  }

  ghost predicate Ascending<T(!new)>(before: (T, T) -> bool, s: seq<T>) {
    forall i, j :: 0 <= i < j < |s| ==> before(s[i], s[j])
  }

  lemma {:induction false} SortedIsSorted<T(!new)>(before: (T, T) -> bool, items: set<T>)
    requires TotalOrder(before)
    ensures |Sorted(before, items)| == |items|
    ensures forall x :: x in Sorted(before, items) <==> x in items
    ensures Ascending(before, Sorted(before, items))
    decreases |items|
  {
    if items != {} {
      var x := First(before, items);
      var rest := Sorted(before, items - {x});
      SortedIsSorted(before, items - {x});
      assert Sorted(before, items) == [x] + rest;
      forall i, j | 0 <= i < j < |rest| + 1 ensures before(([x] + rest)[i], ([x] + rest)[j]) {
        assert ([x] + rest)[j] == rest[j - 1] && rest[j - 1] in rest;
      }
    }
  }

  ghost function Take<T(!new)>(before: (T, T) -> bool, items: set<T>, limit: nat): seq<T>
    requires TotalOrder(before)
  {
    var all := Sorted(before, items);
    if |all| <= limit then all else all[..limit]
  }

  /** A bounded scan returns the first rows in order: everything it leaves out comes after everything it returns, and it
    * leaves something out only when it is full. */
  lemma TakeIsPrefix<T(!new)>(before: (T, T) -> bool, items: set<T>, limit: nat)
    requires TotalOrder(before)
    ensures var taken := Take(before, items, limit);
      && |taken| == (if |items| <= limit then |items| else limit)
      && Ascending(before, taken)
      && (forall x :: x in taken ==> x in items)
      && (forall x, y :: x in items && x !in taken && y in taken ==> before(y, x))
      && (|items| <= limit ==> forall x :: x in items ==> x in taken)
  {
    var all, taken := Sorted(before, items), Take(before, items, limit);
    SortedIsSorted(before, items);
    assert forall j :: 0 <= j < |taken| ==> all[j] == taken[j] && all[j] in taken;
    forall x, y | x in items && x !in taken && y in taken ensures before(y, x) {
      var i :| 0 <= i < |taken| && taken[i] == y;
      var j :| 0 <= j < |all| && all[j] == x;
      assert |taken| <= j;
    }
  }

  /** What ORDER BY … LIMIT n answers: that many rows, in order, and nothing left out comes before any of them. */
  ghost predicate IsScan<T(!new)>(before: (T, T) -> bool, items: set<T>, scanned: seq<T>, n: nat) {
    && |scanned| == (if |items| <= n then |items| else n)
    && Ascending(before, scanned)
    && (forall x :: x in scanned ==> x in items)
    && (forall x, y :: x in items && x !in scanned && y in scanned ==> before(y, x))
  }

  lemma ScanStartsFirst<T(!new)>(before: (T, T) -> bool, items: set<T>, scanned: seq<T>, n: nat)
    requires TotalOrder(before) && IsScan(before, items, scanned, n) && items != {} && n > 0
    ensures |scanned| > 0 && scanned[0] == First(before, items)
    ensures IsScan(before, items - {scanned[0]}, scanned[1..], n - 1)
  {
    var first := First(before, items);
    assert scanned[0] in scanned;
    assert first in scanned;
    assert scanned == [scanned[0]] + scanned[1..];
    forall x | x in scanned[1..] ensures x in items - {scanned[0]} {
      var i :| 0 <= i < |scanned[1..]| && scanned[1..][i] == x;
      assert before(scanned[0], scanned[i + 1]);
    }
  }

  lemma TakeUnfolds<T(!new)>(before: (T, T) -> bool, items: set<T>, n: nat)
    requires TotalOrder(before) && items != {} && n > 0
    ensures var x := First(before, items); Take(before, items, n) == [x] + Take(before, items - {x}, n - 1)
  {
    var x := First(before, items);
    assert Sorted(before, items) == [x] + Sorted(before, items - {x});
  }

  lemma TakeNothing<T(!new)>(before: (T, T) -> bool, items: set<T>)
    requires TotalOrder(before)
    ensures Take(before, items, 0) == [] && Take(before, {}, 0) == []
    ensures items == {} ==> forall n: nat :: Take(before, items, n) == []
  {
    assert Sorted(before, {}) == [];
  }

  /** There is only one such answer. */
  lemma {:induction false} ScanIsTake<T(!new)>(before: (T, T) -> bool, items: set<T>, scanned: seq<T>, n: nat)
    requires TotalOrder(before) && IsScan(before, items, scanned, n)
    ensures scanned == Take(before, items, n)
    decreases n
  {
    if items != {} && n > 0 {
      ScanStartsFirst(before, items, scanned, n);
      ScanIsTake(before, items - {scanned[0]}, scanned[1..], n - 1);
      TakeUnfolds(before, items, n);
      assert scanned == [scanned[0]] + scanned[1..];
    } else {
      TakeNothing(before, items);
      assert scanned == [];
    }
  }

  // ----- Keyset pages -----

  datatype Page<T> = Page(rows: seq<T>, hasMore: bool, next: Option<T>)

  ghost function Beyond<T(!new)>(before: (T, T) -> bool, items: set<T>, cursor: Option<T>): set<T> {
    set x | x in items && (cursor.None? || before(cursor.value, x))
  }

  /** Scan one row more than the limit; that row only says whether there is another page. */
  ghost function PageOf<T(!new)>(before: (T, T) -> bool, items: set<T>, cursor: Option<T>, limit: nat): Page<T>
    requires TotalOrder(before) && limit > 0
  {
    var scanned := Take(before, Beyond(before, items, cursor), limit + 1);
    var rows := if |scanned| > limit then scanned[..limit] else scanned;
    var hasMore := |scanned| > limit;
    Page(rows, hasMore, if hasMore then Some(rows[|rows| - 1]) else None)
  }

  /** The first `limit` rows of a longer scan end exactly where the rest begins. */
  lemma CutIsPrefix<T(!new)>(before: (T, T) -> bool, rest: set<T>, scanned: seq<T>, limit: nat)
    requires TotalOrder(before) && 0 < limit < |scanned| && Ascending(before, scanned)
    requires forall x, y :: x in rest && x !in scanned && y in scanned ==> before(y, x)
    ensures forall x :: x in rest && x !in scanned[..limit] ==> before(scanned[limit - 1], x)
  {
    var rows, last := scanned[..limit], scanned[limit - 1];
    assert forall i :: 0 <= i < limit ==> scanned[i] == rows[i] && scanned[i] in rows;
    assert last in scanned;
    forall x | x in rest && x !in rows ensures before(last, x) {
      if x in scanned {
        var i :| 0 <= i < |scanned| && scanned[i] == x;
        assert limit <= i;
      }
    }
  }

  lemma LastPage<T(!new)>(before: (T, T) -> bool, items: set<T>, cursor: Option<T>, limit: nat)
    requires TotalOrder(before) && limit > 0 && |Beyond(before, items, cursor)| <= limit
    ensures var page := PageOf(before, items, cursor, limit);
      && !page.hasMore && page.next.None? && Ascending(before, page.rows)
      && (forall x :: x in page.rows <==> x in Beyond(before, items, cursor))
  {
    TakeIsPrefix(before, Beyond(before, items, cursor), limit + 1);
  }

  lemma FullPage<T(!new)>(before: (T, T) -> bool, items: set<T>, cursor: Option<T>, limit: nat)
    requires TotalOrder(before) && limit > 0 && |Beyond(before, items, cursor)| > limit
    ensures var page := PageOf(before, items, cursor, limit);
      && page.hasMore && |page.rows| == limit && page.next == Some(page.rows[limit - 1]) && Ascending(before, page.rows)
      && (forall x :: x in page.rows ==> x in Beyond(before, items, cursor))
      && (forall x :: x in Beyond(before, items, cursor) && x !in page.rows ==> before(page.rows[limit - 1], x))
  {
    var rest := Beyond(before, items, cursor);
    var scanned := Take(before, rest, limit + 1);
    TakeIsPrefix(before, rest, limit + 1);
    CutIsPrefix(before, rest, scanned, limit);
    assert PageOf(before, items, cursor, limit) == Page(scanned[..limit], true, Some(scanned[limit - 1]));
  }

  /** What a page promises its reader: the rows right after the cursor in order, and nothing unseen before its own
    * cursor; without a next cursor, nothing unseen at all. */
  ghost predicate IsPage<T(!new)>(before: (T, T) -> bool, items: set<T>, cursor: Option<T>, limit: nat, page: Page<T>)
    requires limit > 0
  {
    && Ascending(before, page.rows)
    && (forall x :: x in page.rows ==> x in Beyond(before, items, cursor))
    && (page.hasMore <==> |Beyond(before, items, cursor)| > limit)
    && (page.hasMore ==> |page.rows| == limit && page.next == Some(page.rows[limit - 1]))
    && (!page.hasMore ==> page.next.None? && forall x :: x in Beyond(before, items, cursor) ==> x in page.rows)
    && (forall x :: page.hasMore && x in Beyond(before, items, cursor) && x !in page.rows ==> before(page.next.value, x))
  }

  lemma PageIsExact<T(!new)>(before: (T, T) -> bool, items: set<T>, cursor: Option<T>, limit: nat)
    requires TotalOrder(before) && limit > 0
    ensures IsPage(before, items, cursor, limit, PageOf(before, items, cursor, limit))
  {
    if |Beyond(before, items, cursor)| <= limit {
      LastPage(before, items, cursor, limit);
    } else {
      FullPage(before, items, cursor, limit);
    }
  }

  lemma PageOfOne<T(!new)>(before: (T, T) -> bool, x: T, limit: nat)
    requires TotalOrder(before) && limit > 0
    ensures PageOf(before, {x}, None, limit) == Page([x], false, None)
  {
    assert Beyond(before, {x}, None) == {x};
    assert First(before, {x}) == x;
    assert {x} - {x} == {};
    assert Sorted(before, {x} - {x}) == [];
    assert Sorted(before, {x}) == [x];
    assert Take(before, {x}, limit + 1) == [x];
  }

  /** Cutting the page out of a scan that asked for one row more than the limit. */
  method CutPage<T(!new)>(ghost before: (T, T) -> bool, ghost items: set<T>, ghost cursor: Option<T>, scanned: seq<T>, limit: nat)
    returns (page: Page<T>)
    requires TotalOrder(before) && limit > 0 && IsScan(before, Beyond(before, items, cursor), scanned, limit + 1)
    ensures page == PageOf(before, items, cursor, limit)
    ensures IsPage(before, items, cursor, limit, page)
  {
    ScanIsTake(before, Beyond(before, items, cursor), scanned, limit + 1);
    PageIsExact(before, items, cursor, limit);
    var rows := if |scanned| > limit then scanned[..limit] else scanned;
    var hasMore := |scanned| > limit;
    page := Page(rows, hasMore, if hasMore then Some(rows[|rows| - 1]) else None);
  }

}
