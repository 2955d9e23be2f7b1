/** Cursor pagination (organizations/cursor.ts) over a list ordered by id. */
module CursorPages {
  import opened Common
  import opened Ordering

  /** A page of row ids; the rows themselves play no part in paging. */
  datatype Page = Page(data: seq<Id>, nextCursor: Option<Id>, hasMore: bool)

  /** One row more than the limit is read, to know whether there are more. */
  function BuildCursorPage(rows: seq<Id>, limit: nat): Page {
    var hasMore := |rows| > limit;
    var data := if hasMore then rows[..limit] else rows;
    Page(data, if hasMore && |data| > 0 then Some(data[|data| - 1]) else None, hasMore)
  }

  predicate IsAfter(id: Id, cursor: Option<Id>) {
    cursor.None? || id > cursor.value
  }

  function RowsAfter(s: set<Id>, cursor: Option<Id>): set<Id> {
    set id | id in s && IsAfter(id, cursor)
  }

  function RowsUpTo(s: set<Id>, cursor: Option<Id>): set<Id> {
    set id | id in s && !IsAfter(id, cursor)
  }

  /** WHERE id > cursor ORDER BY id LIMIT limit + 1, over the rows that pass the filter. */
  function ListPage(s: set<Id>, cursor: Option<Id>, limit: nat): Page {
    BuildCursorPage(FirstOf(RowsAfter(s, cursor), limit + 1), limit)
  }

  // ---------------------------------------------------------------------------------------------
  // One page
  // ---------------------------------------------------------------------------------------------

  lemma {:induction false} AscendingUnique(a: seq<Id>, b: seq<Id>)
    requires Ascending(a) && Ascending(b) && forall x :: x in a <==> x in b
    ensures a == b
  {
    if |a| > 0 && |b| > 0 {
      LastInCommon(a, b);
      var (a', b') := (a[..|a| - 1], b[..|b| - 1]);
      forall x
        ensures x in a' <==> x in b'
      {
        assert x in a <==> x in a' || x == a[|a| - 1];
        assert x in b <==> x in b' || x == b[|b| - 1];
      }
      AscendingUnique(a', b');
    } else {
      SameEmptiness(a, b);
    }
  }

  lemma SameEmptiness(a: seq<Id>, b: seq<Id>)
    requires forall x :: x in a <==> x in b
    ensures |a| == 0 <==> |b| == 0
  {
    assert |a| > 0 ==> a[0] in b;
    assert |b| > 0 ==> b[0] in a;
  }

  lemma LastInCommon(a: seq<Id>, b: seq<Id>)
    requires Ascending(a) && Ascending(b) && |a| > 0 && |b| > 0 && forall x :: x in a <==> x in b
    ensures a[|a| - 1] == b[|b| - 1]
  {
    assert a[|a| - 1] in b && b[|b| - 1] in a;
  }

  lemma AscendingConcat(a: seq<Id>, b: seq<Id>)
    requires Ascending(a) && Ascending(b) && forall x, y :: x in a && y in b ==> x < y
    ensures Ascending(a + b)
  {
    forall i, j | 0 <= i < j < |a + b|
      ensures (a + b)[i] < (a + b)[j]
    {
      if i < |a| <= j {
        assert a[i] in a && b[j - |a|] in b;
      }
    }
  }

  /** A page carries on where the cursor stopped: no row left out, none repeated; it says there is more exactly when there is. */
  lemma PageCarriesOn(s: set<Id>, cursor: Option<Id>, limit: nat)
    requires limit > 0
    ensures var page := ListPage(s, cursor, limit);
            && Sorted(RowsUpTo(s, cursor)) + page.data == Sorted(if page.hasMore then RowsUpTo(s, page.nextCursor) else s)
            && (page.hasMore ==> page.nextCursor.Some? && page.nextCursor.value in s && |page.data| == limit)
            && (!page.hasMore ==> page.nextCursor.None?)
            && (page.hasMore ==> RowsAfter(s, page.nextCursor) != {})
  {
    var page := ListPage(s, cursor, limit);
    PageRows(s, cursor, limit);
    if page.hasMore {
      OneMoreRow(s, cursor, limit);
    }
    JoinSorted(RowsUpTo(s, cursor), page.data, if page.hasMore then RowsUpTo(s, page.nextCursor) else s);
  }

  /** A page that announces more is right: the row read beyond the limit is still to come. */
  lemma OneMoreRow(s: set<Id>, cursor: Option<Id>, limit: nat)
    requires limit > 0 && ListPage(s, cursor, limit).hasMore
    ensures RowsAfter(s, ListPage(s, cursor, limit).nextCursor) != {}
  {
    var rows := FirstOf(RowsAfter(s, cursor), limit + 1);
    PageOf(rows, limit);
    assert rows[limit] in rows && rows[limit] in RowsAfter(s, Some(rows[limit - 1]));
  }

  /** Larger elements in order after a sorted set make up the sorted union. */
  lemma JoinSorted(seen: set<Id>, data: seq<Id>, all: set<Id>)
    requires Ascending(data) && forall x, y :: x in seen && y in data ==> x < y
    requires forall x :: x in all <==> x in seen || x in data
    ensures Sorted(seen) + data == Sorted(all)
  {
    AscendingConcat(Sorted(seen), data);
    AscendingUnique(Sorted(seen) + data, Sorted(all));
  }

  lemma PageRows(s: set<Id>, cursor: Option<Id>, limit: nat)
    requires limit > 0
    ensures var page := ListPage(s, cursor, limit);
            && Ascending(page.data)
            && (page.hasMore ==> page.nextCursor.Some? && page.nextCursor.value in s && |page.data| == limit)
            && forall x :: x in page.data <==> x in s && IsAfter(x, cursor) && (page.hasMore ==> !IsAfter(x, page.nextCursor))
  {
    var all := RowsAfter(s, cursor);
    var rows := FirstOf(all, limit + 1);
    PageOf(rows, limit);
    if |rows| > limit {
      FullPage(all, rows, limit);
    } else {
      AllTaken(all, limit + 1);
    }
  }

  lemma PageOf(rows: seq<Id>, limit: nat)
    requires limit > 0 && |rows| <= limit + 1 && Ascending(rows)
    ensures BuildCursorPage(rows, limit)
              == if |rows| > limit then Page(rows[..limit], Some(rows[limit - 1]), true) else Page(rows, None, false)
    ensures Ascending(BuildCursorPage(rows, limit).data)
  {
  }

  /** The first `limit` of `limit + 1` rows are those up to the last of them. */
  lemma FullPage(all: set<Id>, rows: seq<Id>, limit: nat)
    requires limit > 0 && |rows| == limit + 1 && Ascending(rows)
    requires forall x :: x in rows ==> x in all
    requires forall x, y :: x in rows && y in all && y !in rows ==> x < y
    ensures rows[limit - 1] in all
    ensures forall x :: x in rows[..limit] <==> x in all && x <= rows[limit - 1]
  {
    var last := rows[limit - 1];
    assert last in rows && rows[limit] in rows;
    forall x | x in all && x <= last
      ensures x in rows[..limit]
    {
      assert x in rows;
      var i :| 0 <= i < |rows| && rows[i] == x;
      assert rows[..limit][i] == x;
    }
    forall x | x in rows[..limit]
      ensures x in all && x <= last
    {
      var i :| 0 <= i < limit && rows[..limit][i] == x;
      assert rows[i] in rows;
    }
  }

  lemma AllTaken(s: set<Id>, batch: nat)
    requires |FirstOf(s, batch)| < batch
    ensures forall x :: x in s <==> x in FirstOf(s, batch)
  {
    var ids := FirstOf(s, batch);
    DistinctCount(ids);
    assert ToSet(ids) <= s && |ToSet(ids)| == |s|;
    SubsetOfSameSize(ToSet(ids), s);
  }

  lemma SubsetOfSameSize(a: set<Id>, b: set<Id>)
    requires a <= b && |a| == |b|
    ensures a == b
  {
    assert b == a + (b - a) && |b - a| == |b| - |a|;
  }

  // ---------------------------------------------------------------------------------------------
  // The walk
  // ---------------------------------------------------------------------------------------------

  /** Rows are added between two requests, with ids larger than any there were. */
  ghost predicate Grows(before: set<Id>, after: set<Id>) {
    before <= after && forall x, y :: x in before && y in after - before ==> x < y
  }

  /** A client follows `next_cursor` from the start; request `k` sees the table as in `tables[k]`. */
  ghost predicate IsWalk(tables: seq<set<Id>>, limit: nat, pages: seq<Page>) {
    && |pages| == |tables| > 0
    && pages[0] == ListPage(tables[0], None, limit)
    && forall k :: 0 < k < |pages| ==> FollowsOn(tables, limit, pages, k)
  }

  ghost predicate FollowsOn(tables: seq<set<Id>>, limit: nat, pages: seq<Page>, k: nat)
    requires 0 < k < |pages| == |tables|
  {
    && Grows(tables[k - 1], tables[k])
    && pages[k - 1].hasMore && pages[k] == ListPage(tables[k], pages[k - 1].nextCursor, limit)
  }

  /** All rows received, in the order of their pages. */
  function Received(pages: seq<Page>): seq<Id> {
    if |pages| == 0 then [] else Received(pages[..|pages| - 1]) + pages[|pages| - 1].data
  }

  lemma SeenStaysSeen(before: set<Id>, after: set<Id>, cursor: Option<Id>)
    requires Grows(before, after) && (cursor.Some? ==> cursor.value in before)
    ensures RowsUpTo(after, cursor) == RowsUpTo(before, cursor)
  {
    forall id | id in RowsUpTo(after, cursor)
      ensures id in before
    {
      assert id !in before ==> id in after - before;
    }
  }

  lemma {:induction false} WalkSoFar(tables: seq<set<Id>>, limit: nat, pages: seq<Page>)
    requires limit > 0 && IsWalk(tables, limit, pages)
    ensures var (table, last) := (tables[|tables| - 1], pages[|pages| - 1]);
            && Received(pages) == Sorted(if last.hasMore then RowsUpTo(table, last.nextCursor) else table)
            && (last.hasMore ==> last.nextCursor.Some? && last.nextCursor.value in table && |last.data| == limit)
  {
    var n := |pages| - 1;
    if n == 0 {
      FirstPage(tables[0], limit);
      assert Received(pages[..0]) == [];
    } else {
      assert FollowsOn(tables, limit, pages, n);
      WalkPrefix(tables, limit, pages);
      WalkSoFar(tables[..n], limit, pages[..n]);
      NextPage(tables[n - 1], tables[n], pages[n - 1], limit);
    }
  }

  /** The first request of a walk. */
  lemma FirstPage(table: set<Id>, limit: nat)
    requires limit > 0
    ensures var page := ListPage(table, None, limit);
            && [] + page.data == Sorted(if page.hasMore then RowsUpTo(table, page.nextCursor) else table)
            && (page.hasMore ==> page.nextCursor.Some? && page.nextCursor.value in table && |page.data| == limit)
  {
    assert RowsUpTo(table, None) == {};
    PageCarriesOn(table, None, limit);
  }

  /** One more request of a walk. */
  lemma NextPage(before: set<Id>, after: set<Id>, previous: Page, limit: nat)
    requires limit > 0 && Grows(before, after) && previous.nextCursor.Some? && previous.nextCursor.value in before
    ensures var page := ListPage(after, previous.nextCursor, limit);
            && Sorted(RowsUpTo(before, previous.nextCursor)) + page.data
                 == Sorted(if page.hasMore then RowsUpTo(after, page.nextCursor) else after)
            && (page.hasMore ==> page.nextCursor.Some? && page.nextCursor.value in after && |page.data| == limit)
  {
    SeenStaysSeen(before, after, previous.nextCursor);
    PageCarriesOn(after, previous.nextCursor, limit);
  }

  lemma WalkPrefix(tables: seq<set<Id>>, limit: nat, pages: seq<Page>)
    requires IsWalk(tables, limit, pages) && |pages| > 1
    ensures IsWalk(tables[..|pages| - 1], limit, pages[..|pages| - 1])
  {
    var n := |pages| - 1;
    forall k | 0 < k < n
      ensures FollowsOn(tables[..n], limit, pages[..n], k)
    {
      assert FollowsOn(tables, limit, pages, k);
    }
  }

  /**
   * A finished walk has received exactly the rows of the table as its last request saw it, in
   * ascending order and each once, whatever was added on the way.
   */
  lemma WalkReceivesEverything(tables: seq<set<Id>>, limit: nat, pages: seq<Page>)
    requires limit > 0 && IsWalk(tables, limit, pages) && !pages[|pages| - 1].hasMore
    ensures Received(pages) == Sorted(tables[|tables| - 1])
  {
    WalkSoFar(tables, limit, pages);
  }

  /** One page more than all but the last. */
  lemma ReceivedOneMore(pages: seq<Page>)
    requires |pages| > 0
    ensures |Received(pages)| == |Received(pages[..|pages| - 1])| + |pages[|pages| - 1].data|
  {
  }

  /** While there is more, every page so far was full. */
  lemma {:induction false} ReceivedFull(tables: seq<set<Id>>, limit: nat, pages: seq<Page>)
    requires limit > 0 && IsWalk(tables, limit, pages) && pages[|pages| - 1].hasMore
    ensures |Received(pages)| == Multiple(|pages|, limit)
  {
    var n := |pages| - 1;
    LastIsFull(tables, limit, pages);
    ReceivedOneMore(pages);
    if n > 0 {
      MoreBefore(tables, limit, pages);
      ReceivedFull(tables[..n], limit, pages[..n]);
    } else {
      assert Received(pages[..0]) == [];
    }
  }

  lemma LastIsFull(tables: seq<set<Id>>, limit: nat, pages: seq<Page>)
    requires limit > 0 && IsWalk(tables, limit, pages) && pages[|pages| - 1].hasMore
    ensures |pages[|pages| - 1].data| == limit
  {
    WalkSoFar(tables, limit, pages);
  }

  /** A walk went on only because its previous page said there was more. */
  lemma MoreBefore(tables: seq<set<Id>>, limit: nat, pages: seq<Page>)
    requires IsWalk(tables, limit, pages) && |pages| > 1
    ensures var n := |pages| - 1; IsWalk(tables[..n], limit, pages[..n]) && pages[..n][n - 1].hasMore
  {
    assert FollowsOn(tables, limit, pages, |pages| - 1);
    WalkPrefix(tables, limit, pages);
  }

  lemma ReceivedCount(tables: seq<set<Id>>, limit: nat, pages: seq<Page>)
    requires limit > 0 && IsWalk(tables, limit, pages)
    ensures Multiple(|pages| - 1, limit) <= |Received(pages)|
  {
    var n := |pages| - 1;
    ReceivedOneMore(pages);
    if n > 0 {
      MoreBefore(tables, limit, pages);
      ReceivedFull(tables[..n], limit, pages[..n]);
    }
  }

  lemma ReceivedFits(tables: seq<set<Id>>, limit: nat, pages: seq<Page>)
    requires limit > 0 && IsWalk(tables, limit, pages)
    ensures |Received(pages)| <= |tables[|tables| - 1]|
  {
    WalkSoFar(tables, limit, pages);
    SmallerSubset(RowsUpTo(tables[|tables| - 1], pages[|pages| - 1].nextCursor), tables[|tables| - 1]);
  }

  /** A walk cannot outlast the table: every page but the last brings `limit` new rows. */
  lemma WalkIsBounded(tables: seq<set<Id>>, limit: nat, pages: seq<Page>)
    requires limit > 0 && IsWalk(tables, limit, pages)
    ensures |pages| - 1 <= (|pages| - 1) * limit <= |tables[|tables| - 1]|
  {
    ReceivedCount(tables, limit, pages);
    ReceivedFits(tables, limit, pages);
    MultipleIsProduct(|pages| - 1, limit);
    AtLeastItself(|pages| - 1, limit);
  }

  lemma AtLeastItself(n: nat, limit: nat)
    requires limit > 0
    ensures n <= n * limit
  {
  }

  lemma SmallerSubset(a: set<Id>, b: set<Id>)
    requires a <= b
    ensures |a| <= |b|
  {
    assert b == a + (b - a);
  }
}
