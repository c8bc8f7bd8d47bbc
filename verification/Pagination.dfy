/** Keyset pagination of GET /v1/notifications: one page, and walks over a table that changes between pages. */
module Pagination {
  import opened Wrappers

  const DEFAULT_PAGE_SIZE := 50
  const MAX_PAGE_SIZE := 200

  datatype Key = Key(createdAt: int, id: nat)

  /** columns stands for everything a filter can look at and an UPDATE can change. */
  datatype Row = Row(key: Key, columns: string)

  predicate Less(a: Key, b: Key) {
    a.createdAt < b.createdAt || (a.createdAt == b.createdAt && a.id < b.id)
  }

  /** A table as the (created_at DESC, id DESC) index presents it. */
  predicate Newest(t: seq<Row>) {
    forall i, j :: 0 <= i < j < |t| ==> Less(t[j].key, t[i].key)
  }

  predicate Below(k: Key, cursor: Option<Key>) {
    cursor.None? || Less(k, cursor.value)
  }

  /** The rows the query would yield without LIMIT. */
  function Select(t: seq<Row>, f: Row -> bool, cursor: Option<Key>): seq<Row> {
    if t == [] then []
    else (if f(t[0]) && Below(t[0].key, cursor) then [t[0]] else []) + Select(t[1..], f, cursor)
  }

  datatype Page = Page(items: seq<Row>, next: Option<Key>)

  /** LIMIT limit+1, and the extra row becomes has_more. */
  function PageOf(rows: seq<Row>, limit: nat): Page
    requires limit >= 1
  {
    if |rows| > limit then Page(rows[..limit], Some(rows[limit - 1].key)) else Page(rows, None)
  }

  function List(t: seq<Row>, f: Row -> bool, cursor: Option<Key>, limit: nat): Page
    requires limit >= 1
  {
    PageOf(Select(t, f, cursor), limit)
  }

  datatype ListResult = Listed(page: Page) | BadLimit

  function FirstOf(rows: seq<Row>, n: nat): seq<Row> {
    if |rows| <= n then rows else rows[..n]
  }

  /** out holds what the first i rows contribute. */
  ghost predicate Pending(t: seq<Row>, f: Row -> bool, cursor: Option<Key>, i: nat, out: seq<Row>)
    requires i <= |t|
  {
    Select(t, f, cursor) == out + Select(t[i..], f, cursor)
  }

  lemma PendingStep(t: seq<Row>, f: Row -> bool, cursor: Option<Key>, i: nat, out: seq<Row>)
    requires i < |t| && Pending(t, f, cursor, i, out)
    ensures Pending(t, f, cursor, i + 1, if f(t[i]) && Below(t[i].key, cursor) then out + [t[i]] else out)
  {
    assert t[i..][0] == t[i] && t[i..][1..] == t[i + 1..];
    var rest := Select(t[i + 1..], f, cursor);
    assert out + ([t[i]] + rest) == (out + [t[i]]) + rest;
  }

  lemma PendingEnds(t: seq<Row>, f: Row -> bool, cursor: Option<Key>, i: nat, out: seq<Row>, cap: nat)
    requires i <= |t| && |out| <= cap && Pending(t, f, cursor, i, out)
    requires i == |t| || |out| == cap
    ensures out == FirstOf(Select(t, f, cursor), cap)
  {
    if i == |t| {
      assert Select(t[i..], f, cursor) == [];
    }
  }

  /** The row loop: collect the rows of the query, no more than LIMIT. */
  method Fetch(t: seq<Row>, f: Row -> bool, cursor: Option<Key>, cap: nat) returns (out: seq<Row>)
    ensures out == FirstOf(Select(t, f, cursor), cap)
  {
    out := [];
    var i := 0;
    assert t[0..] == t;
    while i < |t| && |out| < cap
      invariant 0 <= i <= |t| && |out| <= cap
      invariant Pending(t, f, cursor, i, out)
    {
      PendingStep(t, f, cursor, i, out);
      if f(t[i]) && Below(t[i].key, cursor) {
        out := out + [t[i]];
      }
      i := i + 1;
    }
    PendingEnds(t, f, cursor, i, out, cap);
  }

  /** The handler: limit parsing, the scan of the result rows, and the lookahead row sliced off. */
  method ListHandler(t: seq<Row>, f: Row -> bool, cursor: Option<Key>, rawLimit: Option<int>) returns (r: ListResult)
    ensures rawLimit.Some? && rawLimit.value < 1 ==> r == BadLimit
    ensures rawLimit.None? ==> r == Listed(List(t, f, cursor, DEFAULT_PAGE_SIZE))
    ensures rawLimit.Some? && 1 <= rawLimit.value <= MAX_PAGE_SIZE ==> r == Listed(List(t, f, cursor, rawLimit.value))
    ensures rawLimit.Some? && MAX_PAGE_SIZE < rawLimit.value ==> r == Listed(List(t, f, cursor, MAX_PAGE_SIZE))
  {
    var limit: nat := DEFAULT_PAGE_SIZE;
    if rawLimit.Some? {
      if rawLimit.value < 1 {
        return BadLimit;
      }
      limit := if rawLimit.value > MAX_PAGE_SIZE then MAX_PAGE_SIZE else rawLimit.value;
    }
    var out := Fetch(t, f, cursor, limit + 1);
    if |out| > limit {
      var items := out[..limit];
      return Listed(Page(items, Some(items[|items| - 1].key)));
    }
    return Listed(Page(out, None));
  }

  // ---- what one query yields -------------------------------------------------------------------------

  lemma {:induction false} SelectYields(t: seq<Row>, f: Row -> bool, cursor: Option<Key>)
    requires Newest(t)
    ensures var rows := Select(t, f, cursor);
            && Newest(rows)
            && (forall r :: r in rows <==> r in t && f(r) && Below(r.key, cursor))
  {
    if t != [] {
      SelectYields(t[1..], f, cursor);
      var rest := Select(t[1..], f, cursor);
      assert forall r :: r in t <==> r == t[0] || r in t[1..];
      assert forall i :: 0 <= i < |rest| ==> rest[i] in t[1..];
    }
  }

  lemma SelectedAt(t: seq<Row>, f: Row -> bool, cursor: Option<Key>, n: nat) returns (j: nat)
    requires Newest(t) && n < |Select(t, f, cursor)|
    ensures j < |t| && t[j] == Select(t, f, cursor)[n]
  {
    SelectYields(t, f, cursor);
    assert Select(t, f, cursor)[n] in Select(t, f, cursor);
    j :| 0 <= j < |t| && t[j] == Select(t, f, cursor)[n];
  }

  lemma AfterHead(r: Row, rest: seq<Row>, n: nat)
    requires 1 < n <= |rest| + 1
    ensures ([r] + rest)[n - 1] == rest[n - 2] && ([r] + rest)[n..] == rest[n - 1..]
  {
  }

  lemma HeadLeftOut(t: seq<Row>, f: Row -> bool, k: Key)
    requires t != [] && !Less(t[0].key, k)
    ensures Select(t, f, Some(k)) == Select(t[1..], f, Some(k))
  {
    assert Select(t, f, Some(k)) == [] + Select(t[1..], f, Some(k));
  }

  /** Below every row of t's newer neighbours the cursor no longer matters. */
  lemma {:induction false} SameBelow(t: seq<Row>, f: Row -> bool, cursor: Option<Key>, k: Key)
    requires forall i :: 0 <= i < |t| ==> Less(t[i].key, k)
    requires Below(k, cursor)
    ensures Select(t, f, Some(k)) == Select(t, f, cursor)
  {
    if t != [] {
      SameBelow(t[1..], f, cursor, k);
    }
  }

  lemma ContinuesAtHead(t: seq<Row>, f: Row -> bool, cursor: Option<Key>)
    requires t != [] && Newest(t) && Below(t[0].key, cursor)
    ensures Select(t, f, Some(t[0].key)) == Select(t[1..], f, cursor)
  {
    SameBelow(t[1..], f, cursor, t[0].key);
    HeadLeftOut(t, f, t[0].key);
  }

  /** A cursor at the n-th row yields exactly the rows after it. */
  lemma {:induction false} CursorContinues(t: seq<Row>, f: Row -> bool, cursor: Option<Key>, n: nat)
    requires Newest(t) && 1 <= n <= |Select(t, f, cursor)|
    ensures Select(t, f, Some(Select(t, f, cursor)[n - 1].key)) == Select(t, f, cursor)[n..]
    decreases |t|, 1
  {
    var rows, rest := Select(t, f, cursor), Select(t[1..], f, cursor);
    if !(f(t[0]) && Below(t[0].key, cursor)) {
      assert rows == [] + rest;
      ContinuesInTail(t, f, cursor, n);
    } else if n == 1 {
      assert rows == [t[0]] + rest;
      ContinuesAtHead(t, f, cursor);
    } else {
      assert rows == [t[0]] + rest;
      AfterHead(t[0], rest, n);
      ContinuesInTail(t, f, cursor, n - 1);
    }
  }

  lemma {:induction false} ContinuesInTail(t: seq<Row>, f: Row -> bool, cursor: Option<Key>, m: nat)
    requires t != [] && Newest(t) && 1 <= m <= |Select(t[1..], f, cursor)|
    ensures Select(t, f, Some(Select(t[1..], f, cursor)[m - 1].key)) == Select(t[1..], f, cursor)[m..]
    decreases |t|, 0
  {
    var j := SelectedAt(t[1..], f, cursor, m - 1);
    var k := Select(t[1..], f, cursor)[m - 1].key;
    assert t[j + 1].key == k;
    CursorContinues(t[1..], f, cursor, m);
    HeadLeftOut(t, f, k);
  }

  // ---- walks -----------------------------------------------------------------------------------------

  /** Page k of a walk is read from tables[k], with page size limits[k]. */
  datatype Walked = Walked(rows: seq<Row>, done: bool)

  predicate Walkable(tables: seq<seq<Row>>, limits: seq<nat>) {
    && |tables| == |limits|
    && (forall k :: 0 <= k < |limits| ==> 1 <= limits[k] <= MAX_PAGE_SIZE)
    && (forall k :: 0 <= k < |tables| ==> Newest(tables[k]))
  }

  /** Following next_cursor until there is none, or until the tables run out. */
  function Walk(tables: seq<seq<Row>>, limits: seq<nat>, f: Row -> bool, cursor: Option<Key>): Walked
    requires Walkable(tables, limits)
    decreases |tables|
  {
    if tables == [] then Walked([], false)
    else
      var page := List(tables[0], f, cursor, limits[0]);
      if page.next.None? then Walked(page.items, true)
      else
        var rest := Walk(tables[1..], limits[1..], f, page.next);
        Walked(page.items + rest.rows, rest.done)
  }

  lemma NewestJoins(a: seq<Row>, b: seq<Row>)
    requires Newest(a) && Newest(b) && a != []
    requires forall i :: 0 <= i < |b| ==> Less(b[i].key, a[|a| - 1].key)
    ensures Newest(a + b)
  {
    forall i, j | 0 <= i < j < |a + b|
      ensures Less((a + b)[j].key, (a + b)[i].key)
    {
      if i < |a| <= j {
        assert Less(b[j - |a|].key, a[|a| - 1].key);
      }
    }
  }

  lemma PageYields(t: seq<Row>, f: Row -> bool, cursor: Option<Key>, limit: nat)
    requires Newest(t) && limit >= 1
    ensures var p := List(t, f, cursor, limit);
            && Newest(p.items)
            && (forall i :: 0 <= i < |p.items| ==> Below(p.items[i].key, cursor))
            && (p.next.Some? ==> |p.items| == limit && p.next.value == p.items[limit - 1].key)
  {
    SelectYields(t, f, cursor);
    var rows := Select(t, f, cursor);
    forall i | 0 <= i < |rows|
      ensures Below(rows[i].key, cursor)
    {
      assert rows[i] in rows;
    }
  }

  /** No walk returns a row twice: keys strictly descend from page to page, whatever happens to the table. */
  lemma {:induction false} WalkNeverRepeats(
    tables: seq<seq<Row>>, limits: seq<nat>, f: Row -> bool, cursor: Option<Key>)
    requires Walkable(tables, limits)
    ensures var rows := Walk(tables, limits, f, cursor).rows;
            Newest(rows) && forall i :: 0 <= i < |rows| ==> Below(rows[i].key, cursor)
    decreases |tables|
  {
    if tables != [] {
      var page := List(tables[0], f, cursor, limits[0]);
      PageYields(tables[0], f, cursor, limits[0]);
      if page.next.Some? {
        WalkNeverRepeats(tables[1..], limits[1..], f, page.next);
        NewestJoins(page.items, Walk(tables[1..], limits[1..], f, page.next).rows);
        assert Below(page.items[limits[0] - 1].key, cursor);
      }
    }
  }

  /** A row with key k is there and matches. */
  ghost predicate Matches(t: seq<Row>, f: Row -> bool, k: Key) {
    exists r :: r in t && r.key == k && f(r)
  }

  ghost predicate Returned(rows: seq<Row>, k: Key) {
    exists i :: 0 <= i < |rows| && rows[i].key == k
  }

  /** A matching row below the cursor is on the page, or below the next cursor. */
  lemma PageMissesNothing(t: seq<Row>, f: Row -> bool, cursor: Option<Key>, limit: nat, k: Key)
    requires Newest(t) && limit >= 1 && Matches(t, f, k) && Below(k, cursor)
    ensures var page := List(t, f, cursor, limit);
            Returned(page.items, k) || (page.next.Some? && Below(k, page.next))
  {
    var rows := Select(t, f, cursor);
    SelectYields(t, f, cursor);
    var r :| r in t && r.key == k && f(r);
    assert r in rows;
    var i :| 0 <= i < |rows| && rows[i] == r;
    if |rows| <= limit || i < limit {
      assert List(t, f, cursor, limit).items[i].key == k;
    }
  }

  lemma ReturnedInEither(a: seq<Row>, b: seq<Row>, k: Key)
    requires Returned(a, k) || Returned(b, k)
    ensures Returned(a + b, k)
  {
    if Returned(a, k) {
      var i :| 0 <= i < |a| && a[i].key == k;
      assert (a + b)[i].key == k;
    } else {
      var i :| 0 <= i < |b| && b[i].key == k;
      assert (a + b)[|a| + i].key == k;
    }
  }

  /** A finished walk has returned every row that was there and matched on every page, ties in created_at included. */
  lemma {:induction false} WalkMissesNothing(
    tables: seq<seq<Row>>, limits: seq<nat>, f: Row -> bool, cursor: Option<Key>, k: Key)
    requires Walkable(tables, limits) && Walk(tables, limits, f, cursor).done
    requires Below(k, cursor) && forall i :: 0 <= i < |tables| ==> Matches(tables[i], f, k)
    ensures Returned(Walk(tables, limits, f, cursor).rows, k)
    decreases |tables|
  {
    var page := List(tables[0], f, cursor, limits[0]);
    PageMissesNothing(tables[0], f, cursor, limits[0], k);
    if page.next.Some? {
      var rest := Walk(tables[1..], limits[1..], f, page.next);
      if !Returned(page.items, k) {
        WalkMissesNothing(tables[1..], limits[1..], f, page.next, k);
      }
      ReturnedInEither(page.items, rest.rows, k);
    }
  }

  /** With created_at fixed per id, different keys are different notifications: every such row comes exactly once. */
  lemma WalkReturnsOnce(tables: seq<seq<Row>>, limits: seq<nat>, f: Row -> bool, k: Key)
    requires Walkable(tables, limits) && Walk(tables, limits, f, None).done
    requires forall i :: 0 <= i < |tables| ==> Matches(tables[i], f, k)
    ensures var rows := Walk(tables, limits, f, None).rows;
            exists i ::
              && 0 <= i < |rows| && rows[i].key == k
              && forall j :: 0 <= j < |rows| && rows[j].key == k ==> j == i
  {
    WalkNeverRepeats(tables, limits, f, None);
    WalkMissesNothing(tables, limits, f, None, k);
    var rows := Walk(tables, limits, f, None).rows;
    var i :| 0 <= i < |rows| && rows[i].key == k;
    forall j | 0 <= j < |rows| && rows[j].key == k
      ensures j == i
    {
    }
  }

  /** A page and what lies below its cursor make up the whole list. */
  lemma PageSplits(t: seq<Row>, f: Row -> bool, cursor: Option<Key>, limit: nat)
    requires Newest(t) && limit >= 1
    ensures var rows, page := Select(t, f, cursor), List(t, f, cursor, limit);
            if page.next.None? then page.items == rows
            else page.items + Select(t, f, page.next) == rows && |Select(t, f, page.next)| < |rows|
  {
    var rows := Select(t, f, cursor);
    if |rows| > limit {
      CursorContinues(t, f, cursor, limit);
      assert rows == rows[..limit] + rows[limit..];
    }
  }

  /** On a table that stays put a finished walk is the whole filtered list, and enough pages finish it. */
  lemma {:induction false} WalkOfFixedTable(
    t: seq<Row>, tables: seq<seq<Row>>, limits: seq<nat>, f: Row -> bool, cursor: Option<Key>)
    requires Walkable(tables, limits) && Newest(t) && forall k :: 0 <= k < |tables| ==> tables[k] == t
    ensures var w := Walk(tables, limits, f, cursor);
            && (w.done ==> w.rows == Select(t, f, cursor))
            && (tables != [] && |tables| >= |Select(t, f, cursor)| ==> w.done)
    decreases |tables|
  {
    if tables != [] {
      var page := List(tables[0], f, cursor, limits[0]);
      PageSplits(tables[0], f, cursor, limits[0]);
      if page.next.Some? {
        WalkOfFixedTable(t, tables[1..], limits[1..], f, page.next);
      }
    }
  }
}
