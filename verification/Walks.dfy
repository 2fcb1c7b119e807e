/** When following the evidence listing's cursor returns everything: an exact condition, known before the first page. */
module Walks {
  import opened Wrappers
  import opened Graphs
  import opened GraphHistory
  import opened Pagination

  /** The matching rows below an index. */
  function Under(table: set<Row>, f: Filter, i: int): set<Row> {
    set r | r in table && Matches(r, f) && r.logIndex < i
  }

  /** How many rows there are on `k` full pages. */
  function Filled(k: nat, limit: nat): nat {
    if k == 0 then 0 else Filled(k - 1, limit) + limit
  }

  lemma {:induction false} FilledGrows(j: nat, k: nat, limit: nat)
    requires j <= k
    ensures Filled(j, limit) <= Filled(k, limit)
  {
    if j < k {
      FilledGrows(j, k - 1, limit);
    }
  }

  lemma {:induction false} FilledOne(k: nat)
    ensures Filled(k, 1) == k
  {
    if k > 0 {
      FilledOne(k - 1);
    }
  }

  /** The k-th page of this size would end inside the rows of index `i`. */
  ghost predicate Splits(table: set<Row>, f: Filter, limit: nat, i: int, k: nat) {
    |Under(table, f, i)| < Filled(k, limit) < |Under(table, f, i + 1)|
  }

  /** No page of this size ends inside the rows of an index. */
  ghost predicate Aligned(table: set<Row>, f: Filter, limit: nat) {
    forall i: int, k: nat :: !Splits(table, f, limit, i, k)
  }

  ghost predicate Uniform(vs: seq<Visit>, limit: nat) {
    forall k :: 0 <= k < |vs| ==> vs[k].limit == limit
  }

  ghost predicate Complete(f: Filter, vs: seq<Visit>, table: set<Row>) {
    forall r :: r in table && Matches(r, f) ==> r in Seen(vs)
  }

  // ---- Counting rows ----

  function RowSet(rows: seq<Row>): set<Row> {
    set r | r in rows
  }

  lemma {:induction false} CountRows(rows: seq<Row>)
    requires NoRepeats(rows)
    ensures |RowSet(rows)| == |rows|
  {
    if rows != [] {
      var front, last := rows[..|rows| - 1], rows[|rows| - 1];
      CountRows(front);
      assert rows == front + [last];
      assert RowSet(rows) == RowSet(front) + {last};
    }
  }

  lemma {:induction false} Subset(a: set<Row>, b: set<Row>)
    requires a <= b
    ensures |a| <= |b| && (|a| == |b| ==> a == b)
  {
    if a != {} {
      var r :| r in a;
      Subset(a - {r}, b - {r});
    }
  }

  lemma UnderGrows(table: set<Row>, f: Filter, i: int, j: int)
    requires i <= j
    ensures |Under(table, f, i)| <= |Under(table, f, j)|
  {
    Subset(Under(table, f, i), Under(table, f, j));
  }

  // ---- What a walk has seen ----

  lemma {:induction false} SeenMatch(f: Filter, vs: seq<Visit>, table: set<Row>)
    requires Walk(f, vs) && Fixed(vs, table)
    ensures forall r :: r in Seen(vs) ==> r in table && Matches(r, f)
  {
    if vs != [] {
      SeenMatch(f, vs[..|vs| - 1], table);
      AnsweredSound(f, Cursor(vs[..|vs| - 1]), vs[|vs| - 1]);
    }
  }

  lemma PageCount(v: Visit)
    ensures |v.Page()| <= v.limit && (v.Next().Some? ==> |v.Page()| == v.limit)
  {
  }

  /** Every page but the last is full. */
  lemma {:induction false} SeenCount(f: Filter, vs: seq<Visit>, limit: nat)
    requires Walk(f, vs) && Uniform(vs, limit)
    ensures |Seen(vs)| <= Filled(|vs|, limit)
    ensures vs != [] && Cursor(vs).Some? ==> |Seen(vs)| == Filled(|vs|, limit)
  {
    if vs != [] {
      var front, v := vs[..|vs| - 1], vs[|vs| - 1];
      SeenCount(f, front, limit);
      PageCount(v);
    }
  }

  /** What a walk with a next cursor has seen lies at or below it, without repeats, in full pages. */
  lemma SeenBelow(f: Filter, vs: seq<Visit>, table: set<Row>, limit: nat, c: int)
    requires Walk(f, vs) && vs != [] && Fixed(vs, table) && Uniform(vs, limit) && CursorOf(Cursor(vs)) == Some(c)
    ensures RowSet(Seen(vs)) <= Under(table, f, c + 1) && |RowSet(Seen(vs))| == Filled(|vs|, limit)
  {
    WalkAscends(f, vs);
    SeenMatch(f, vs, table);
    SeenCount(f, vs, limit);
    CountRows(Seen(vs));
    forall r | r in Seen(vs) ensures r in Under(table, f, c + 1) {
      var i :| 0 <= i < |Seen(vs)| && Seen(vs)[i] == r;
    }
  }

  // ---- Aligned pages lose nothing ----

  /** Every matching row that the bound rules out has been seen. */
  ghost predicate Ahead(table: set<Row>, f: Filter, bound: Option<int>, seen: seq<Row>) {
    forall r :: r in table && Matches(r, f) && !Wanted(r, f, bound) ==> r in seen
  }

  /** A page with rows behind it reaches every row below its last index. */
  lemma PageReaches(table: set<Row>, f: Filter, after: Option<int>, limit: nat, items: seq<Row>, seen: seq<Row>)
    requires IsAnswer(table, f, after, limit + 1, items) && |items| > limit >= 1 && Ahead(table, f, after, seen)
    ensures Under(table, f, items[limit - 1].logIndex) < RowSet(seen + items[..limit])
  {
    var c, page := items[limit - 1].logIndex, items[..limit];
    forall r | r in Under(table, f, c) ensures r in RowSet(seen + page) {
      if Wanted(r, f, after) && r !in page {
        PageComplete(table, f, after, limit, items, r);
      }
    }
    assert page[limit - 1] == items[limit - 1] && items[limit - 1] in page;
    assert items[limit - 1] in RowSet(seen + page) && items[limit - 1] !in Under(table, f, c);
  }

  lemma NothingSplit(table: set<Row>, f: Filter, limit: nat, c: int, k: nat, seen: set<Row>)
    requires Aligned(table, f, limit) && Under(table, f, c) < seen <= Under(table, f, c + 1) && |seen| == Filled(k, limit)
    ensures seen == Under(table, f, c + 1)
  {
    assert !Splits(table, f, limit, c, k);
    Subset(Under(table, f, c), seen);
    Subset(seen, Under(table, f, c + 1));
  }

  lemma StillBehind(table: set<Row>, f: Filter, c: int, seen: seq<Row>)
    requires RowSet(seen) == Under(table, f, c + 1)
    ensures Ahead(table, f, Some(c), seen)
  {
    forall r | r in table && Matches(r, f) && !Wanted(r, f, Some(c)) ensures r in seen {
      assert r in Under(table, f, c + 1);
    }
  }

  /** An aligned page with rows behind it reaches every row up to its last index. */
  lemma AlignedPage(table: set<Row>, f: Filter, after: Option<int>, limit: nat, items: seq<Row>, seen: seq<Row>, k: nat)
    requires IsAnswer(table, f, after, limit + 1, items) && |items| > limit >= 1 && Ahead(table, f, after, seen) && Aligned(table, f, limit)
    requires RowSet(seen + items[..limit]) <= Under(table, f, items[limit - 1].logIndex + 1)
    requires |RowSet(seen + items[..limit])| == Filled(k, limit)
    ensures Ahead(table, f, Some(items[limit - 1].logIndex), seen + items[..limit])
  {
    PageReaches(table, f, after, limit, items, seen);
    NothingSplit(table, f, limit, items[limit - 1].logIndex, k, RowSet(seen + items[..limit]));
    StillBehind(table, f, items[limit - 1].logIndex, seen + items[..limit]);
  }

  /** What a request with a next cursor says about the answer behind it. */
  lemma Turned(f: Filter, cursor: Option<string>, v: Visit, table: set<Row>)
    requires Answered(f, cursor, v) && v.table == table && v.Next().Some?
    ensures |v.items| > v.limit >= 1 && IsAnswer(table, f, CursorOf(cursor), v.limit + 1, v.items)
    ensures v.Page() == v.items[..v.limit] && CursorOf(v.Next()) == Some(v.items[v.limit - 1].logIndex)
  {
    PageCursor(v.items, v.limit);
  }

  lemma VisitAhead(f: Filter, cursor: Option<string>, v: Visit, table: set<Row>, limit: nat, seen: seq<Row>, k: nat)
    requires Answered(f, cursor, v) && v.table == table && v.limit == limit && v.Next().Some? && CursorOf(v.Next()).Some?
    requires Ahead(table, f, CursorOf(cursor), seen) && Aligned(table, f, limit)
    requires RowSet(seen + v.Page()) <= Under(table, f, CursorOf(v.Next()).value + 1) && |RowSet(seen + v.Page())| == Filled(k, limit)
    ensures Ahead(table, f, CursorOf(v.Next()), seen + v.Page())
  {
    Turned(f, cursor, v, table);
    AlignedPage(table, f, CursorOf(cursor), limit, v.items, seen, k);
  }

  /** An aligned walk with a next cursor has seen every row up to it. */
  lemma {:induction false} AlignedAhead(f: Filter, vs: seq<Visit>, table: set<Row>, limit: nat)
    requires Walk(f, vs) && Fixed(vs, table) && Uniform(vs, limit) && Aligned(table, f, limit) && (vs != [] ==> Cursor(vs).Some?)
    ensures Ahead(table, f, CursorOf(Cursor(vs)), Seen(vs))
  {
    if vs != [] {
      var front, v := vs[..|vs| - 1], vs[|vs| - 1];
      AlignedAhead(f, front, table, limit);
      WalkAscends(f, vs);
      SeenBelow(f, vs, table, limit, CursorOf(v.Next()).value);
      VisitAhead(f, Cursor(front), v, table, limit, Seen(front), |vs|);
    }
  }

  lemma AlignedIsComplete(f: Filter, vs: seq<Visit>, table: set<Row>, limit: nat)
    requires Walk(f, vs) && vs != [] && Cursor(vs) == None && Fixed(vs, table) && Uniform(vs, limit) && Aligned(table, f, limit)
    ensures Complete(f, vs, table)
  {
    var front, v := vs[..|vs| - 1], vs[|vs| - 1];
    AlignedAhead(f, front, table, limit);
    LastPage(f, Cursor(front), v);
    LastSeen(f, CursorOf(Cursor(front)), table, Seen(front), v.Page());
  }

  lemma LastSeen(f: Filter, after: Option<int>, table: set<Row>, seen: seq<Row>, page: seq<Row>)
    requires Ahead(table, f, after, seen) && forall r :: r in table && Wanted(r, f, after) ==> r in page
    ensures forall r :: r in table && Matches(r, f) ==> r in seen + page
  {
  }

  /** A page without a next cursor has every row that is still wanted. */
  lemma LastPage(f: Filter, cursor: Option<string>, v: Visit)
    requires Answered(f, cursor, v) && v.Next() == None
    ensures forall r :: r in v.table && Wanted(r, f, CursorOf(cursor)) ==> r in v.Page()
  {
    var after := CursorOf(cursor);
    forall r | r in v.table && Wanted(r, f, after) && r !in v.Page() ensures false {
      PageComplete(v.table, f, after, v.limit, v.items, r);
    }
  }

  // ---- A walk that loses nothing is aligned ----

  lemma {:induction false} WalkPrefix(f: Filter, vs: seq<Visit>, k: nat)
    requires Walk(f, vs) && k <= |vs|
    ensures Walk(f, vs[..k]) && (0 < k < |vs| ==> Cursor(vs[..k]).Some?)
  {
    if k < |vs| {
      var front := vs[..|vs| - 1];
      WalkPrefix(f, front, k);
      assert front[..k] == vs[..k];
      assert k == |front| ==> vs[..k] == front;
    } else {
      assert vs[..k] == vs;
    }
  }

  /** Pages behind a cursor hold only rows above it. */
  lemma {:induction false} LaterIsAbove(f: Filter, vs: seq<Visit>, k: nat, c: int)
    requires Walk(f, vs) && 0 < k <= |vs| && CursorOf(Cursor(vs[..k])) == Some(c)
    ensures forall r :: r in Seen(vs) && r.logIndex <= c ==> r in Seen(vs[..k])
    ensures Cursor(vs).Some? ==> CursorOf(Cursor(vs)).Some? && CursorOf(Cursor(vs)).value >= c
  {
    if k == |vs| {
      assert vs[..k] == vs;
    } else {
      var front, v := vs[..|vs| - 1], vs[|vs| - 1];
      assert front[..k] == vs[..k];
      LaterIsAbove(f, front, k, c);
      AnsweredSound(f, Cursor(front), v);
      forall r | r in v.Page() ensures r.logIndex > c {
        var i :| 0 <= i < |v.Page()| && v.Page()[i] == r;
      }
    }
  }

  lemma PrefixBelow(f: Filter, vs: seq<Visit>, table: set<Row>, limit: nat, k: nat, c: int)
    requires k <= |vs| && Walk(f, vs[..k]) && Fixed(vs, table) && Uniform(vs, limit) && 0 < k < |vs| && CursorOf(Cursor(vs[..k])) == Some(c)
    ensures RowSet(Seen(vs[..k])) <= Under(table, f, c + 1) && |RowSet(Seen(vs[..k]))| == Filled(k, limit)
  {
    SeenBelow(f, vs[..k], table, limit, c);
  }

  /** Where a complete walk turned a page, every row up to the cursor had been returned. */
  lemma CompleteTurn(f: Filter, vs: seq<Visit>, table: set<Row>, limit: nat, k: nat, c: int)
    requires Walk(f, vs) && Fixed(vs, table) && Uniform(vs, limit) && Complete(f, vs, table)
    requires 0 < k < |vs| && CursorOf(Cursor(vs[..k])) == Some(c)
    ensures |Under(table, f, c + 1)| == Filled(k, limit)
  {
    WalkPrefix(f, vs, k);
    LaterIsAbove(f, vs, k, c);
    PrefixBelow(f, vs, table, limit, k, c);
    SameRows(table, f, c, Seen(vs), Seen(vs[..k]));
  }

  lemma SameRows(table: set<Row>, f: Filter, c: int, all: seq<Row>, part: seq<Row>)
    requires RowSet(part) <= Under(table, f, c + 1)
    requires forall r :: r in table && Matches(r, f) ==> r in all
    requires forall r :: r in all && r.logIndex <= c ==> r in part
    ensures RowSet(part) == Under(table, f, c + 1)
  {
  }

  lemma CountAll(f: Filter, vs: seq<Visit>, table: set<Row>, limit: nat, i: int)
    requires Walk(f, vs) && Fixed(vs, table) && Uniform(vs, limit) && Complete(f, vs, table)
    ensures |Under(table, f, i)| <= Filled(|vs|, limit)
  {
    SeenCount(f, vs, limit);
    WalkAscends(f, vs);
    CountRows(Seen(vs));
    Subset(Under(table, f, i), RowSet(Seen(vs)));
  }

  lemma TurnedClean(table: set<Row>, f: Filter, limit: nat, c: int, i: int, k: nat)
    requires |Under(table, f, c + 1)| == Filled(k, limit)
    ensures !Splits(table, f, limit, i, k)
  {
    if c < i {
      UnderGrows(table, f, c + 1, i);
    } else {
      UnderGrows(table, f, i + 1, c + 1);
    }
  }

  lemma CompleteIsAligned(f: Filter, vs: seq<Visit>, table: set<Row>, limit: nat, i: int, k: nat)
    requires Walk(f, vs) && Fixed(vs, table) && Uniform(vs, limit) && Complete(f, vs, table)
    ensures !Splits(table, f, limit, i, k)
  {
    if k >= |vs| {
      CountAll(f, vs, table, limit, i + 1);
      FilledGrows(|vs|, k, limit);
    } else if k > 0 {
      WalkPrefix(f, vs, k);
      WalkAscends(f, vs[..k]);
      var c := CursorOf(Cursor(vs[..k])).value;
      CompleteTurn(f, vs, table, limit, k, c);
      TurnedClean(table, f, limit, c, i, k);
    }
  }

  /**
   * For every filter, page size and unchanging table, however the database orders rows of one index:
   * following the cursor to its end returns every matching row exactly when no page ends inside the
   * rows of an index.
   */
  lemma WalkCompleteIff(f: Filter, vs: seq<Visit>, table: set<Row>, limit: nat)
    requires Walk(f, vs) && vs != [] && Cursor(vs) == None && Fixed(vs, table) && Uniform(vs, limit)
    ensures Complete(f, vs, table) <==> Aligned(table, f, limit)
  {
    if Aligned(table, f, limit) {
      AlignedIsComplete(f, vs, table, limit);
    }
    if Complete(f, vs, table) {
      forall i: int, k: nat ensures !Splits(table, f, limit, i, k) {
        CompleteIsAligned(f, vs, table, limit, i, k);
      }
    }
  }

  // ---- Which tables are aligned for every page size ----

  lemma SingleRows(table: set<Row>, f: Filter, i: int)
    requires OneRowEach(table, f)
    ensures |Under(table, f, i + 1)| <= |Under(table, f, i)| + 1
  {
    if r :| r in Under(table, f, i + 1) && r !in Under(table, f, i) {
      Subset(Under(table, f, i + 1), Under(table, f, i) + {r});
    } else {
      Subset(Under(table, f, i + 1), Under(table, f, i));
    }
  }

  lemma TwoRows(table: set<Row>, f: Filter, a: Row, b: Row)
    requires a in table && b in table && Matches(a, f) && Matches(b, f) && a.logIndex == b.logIndex && a != b
    ensures Splits(table, f, 1, a.logIndex, |Under(table, f, a.logIndex)| + 1)
  {
    var below := Under(table, f, a.logIndex);
    assert |below + {a} + {b}| == |below| + 2;
    Subset(below + {a} + {b}, Under(table, f, a.logIndex + 1));
    FilledOne(|below| + 1);
  }

  /** Every page size is aligned exactly when pages of one row are, and exactly when no index has two matching rows. */
  lemma AlignedIff(table: set<Row>, f: Filter)
    ensures OneRowEach(table, f) <==> forall limit: nat :: Aligned(table, f, limit)
    ensures OneRowEach(table, f) <==> Aligned(table, f, 1)
  {
    if OneRowEach(table, f) {
      forall limit: nat, i: int, k: nat ensures !Splits(table, f, limit, i, k) {
        SingleRows(table, f, i);
      }
    }
    if Aligned(table, f, 1) {
      forall a, b | a in table && b in table && Matches(a, f) && Matches(b, f) && a.logIndex == b.logIndex ensures a == b {
        if a != b {
          TwoRows(table, f, a, b);
        }
      }
    }
  }

  /**
   * The same for the rows of a graph: paging through a subject's evidence one by one returns all of it
   * exactly when, at every index where the subject has an event and the last event matches, all events
   * of whatever subject were attributed to one publisher; and then every page size does.
   */
  lemma ListingCompleteIff(jobs: seq<Job>, subject: string, f: Filter, vs: seq<Visit>, table: set<Row>, limit: nat)
    requires forall r :: r in table <==> RowOf(Replay(EMPTY, jobs), subject, r)
    requires Walk(f, vs) && vs != [] && Cursor(vs) == None && Fixed(vs, table) && Uniform(vs, limit)
    ensures OnePublisherEach(jobs, subject, f) ==> Complete(f, vs, table)
    ensures limit == 1 ==> (Complete(f, vs, table) <==> OnePublisherEach(jobs, subject, f))
  {
    OneRowIff(jobs, subject, f);
    AlignedIff(table, f);
    WalkCompleteIff(f, vs, table, limit);
    assert OneRowEach(table, f) <==> OneRowPerIndex(Replay(EMPTY, jobs), subject, f);
  }

  // ---- There is such a walk ----

  /** The first row in index order, another one than `b` where there is a choice. */
  lemma {:induction false} First(w: set<Row>, b: Row) returns (m: Row)
    requires w != {}
    ensures m in w && forall r :: r in w ==> m.logIndex <= r.logIndex
    ensures m == b ==> forall r :: r in w && r.logIndex == b.logIndex ==> r == b
    decreases |w|
  {
    m :| m in w;
    if w != {m} {
      var n := First(w - {m}, b);
      if n.logIndex < m.logIndex || (n.logIndex == m.logIndex && m == b) {
        m := n;
      }
    }
  }

  /** Up to `n` rows in index order, none left out below the last, and `b` behind the others at its index. */
  lemma {:induction false} Enumerate(w: set<Row>, n: nat, b: Row) returns (items: seq<Row>)
    ensures |items| <= n && Ascending(items) && NoRepeats(items) && forall r :: r in items ==> r in w
    ensures forall r :: r in w && r !in items ==> |items| == n && Below(items, r.logIndex)
    ensures items != [] && items[0] == b ==> forall r :: r in w && r.logIndex == b.logIndex ==> r == b
    decreases n
  {
    items := [];
    if n > 0 && w != {} {
      var m := First(w, b);
      var rest := Enumerate(w - {m}, n - 1, b);
      items := [m] + rest;
    }
  }

  /** Another matching row has the same index. */
  ghost predicate HasTwin(table: set<Row>, f: Filter, b: Row) {
    exists a :: a in table && Matches(a, f) && a.logIndex == b.logIndex && a != b
  }

  /** One row at a time, a row with a twin is not among these. */
  ghost predicate PassesOver(table: set<Row>, f: Filter, limit: nat, b: Row, rows: seq<Row>) {
    limit == 1 && HasTwin(table, f, b) ==> b !in rows
  }

  lemma NextVisit(f: Filter, table: set<Row>, cursor: Option<string>, limit: nat, b: Row) returns (v: Visit)
    requires limit >= 1
    ensures Answered(f, cursor, v) && v.table == table && v.limit == limit
    ensures PassesOver(table, f, limit, b, v.Page())
  {
    var w := set r | r in table && Wanted(r, f, CursorOf(cursor));
    var items := Enumerate(w, limit + 1, b);
    v := Visit(table, limit, items);
    if limit == 1 && HasTwin(table, f, b) && Wanted(b, f, CursorOf(cursor)) {
      var a :| a in table && Matches(a, f) && a.logIndex == b.logIndex && a != b;
      assert a in w;
    }
  }

  /** A walk over the table with this page size, which passes over `b` if it can. */
  ghost predicate Passing(f: Filter, vs: seq<Visit>, table: set<Row>, limit: nat, b: Row) {
    Walk(f, vs) && vs != [] && Fixed(vs, table) && Uniform(vs, limit) && PassesOver(table, f, limit, b, Seen(vs))
  }

  lemma PassOn(f: Filter, vs: seq<Visit>, table: set<Row>, limit: nat, b: Row) returns (v: Visit)
    requires limit >= 1 && (vs == [] || (Passing(f, vs, table, limit, b) && Cursor(vs).Some?))
    ensures Passing(f, vs + [v], table, limit, b)
  {
    v := NextVisit(f, table, Cursor(vs), limit, b);
    WalkNext(f, vs, v);
    SameTable(vs, v, table, limit);
    PassesBoth(table, f, limit, b, Seen(vs), v.Page());
  }

  lemma SameTable(vs: seq<Visit>, v: Visit, table: set<Row>, limit: nat)
    requires Fixed(vs, table) && Uniform(vs, limit) && v.table == table && v.limit == limit
    ensures Fixed(vs + [v], table) && Uniform(vs + [v], limit)
  {
  }

  lemma PassesBoth(table: set<Row>, f: Filter, limit: nat, b: Row, rows: seq<Row>, page: seq<Row>)
    requires PassesOver(table, f, limit, b, rows) && PassesOver(table, f, limit, b, page)
    ensures PassesOver(table, f, limit, b, rows + page)
  {
  }

  lemma PassingEnds(f: Filter, vs: seq<Visit>, table: set<Row>, limit: nat, b: Row)
    requires Passing(f, vs, table, limit, b)
    ensures |vs| <= |table| + 1
  {
    WalkEnds(f, vs, table);
  }

  lemma {:induction false} Finish(f: Filter, vs: seq<Visit>, table: set<Row>, limit: nat, b: Row) returns (all: seq<Visit>)
    requires limit >= 1 && Passing(f, vs, table, limit, b)
    ensures Passing(f, all, table, limit, b) && Cursor(all) == None
    decreases |table| + 1 - |vs|
  {
    if Cursor(vs).None? {
      all := vs;
    } else {
      var v := PassOn(f, vs, table, limit, b);
      PassingEnds(f, vs + [v], table, limit, b);
      all := Finish(f, vs + [v], table, limit, b);
    }
  }

  /** For every table, filter and page size some walk comes to its end; one row at a time it can pass over any row that has a twin. */
  lemma FinishedWalk(f: Filter, table: set<Row>, limit: nat, b: Row) returns (vs: seq<Visit>)
    requires limit >= 1
    ensures Passing(f, vs, table, limit, b) && Cursor(vs) == None
  {
    var v := PassOn(f, [], table, limit, b);
    vs := Finish(f, [] + [v], table, limit, b);
  }

  /** With two matching rows at one index, in whatever table, a walk can miss either of them. */
  lemma SplitLoses(f: Filter, table: set<Row>, a: Row, b: Row) returns (vs: seq<Visit>)
    requires a in table && b in table && a != b && a.logIndex == b.logIndex && Matches(a, f) && Matches(b, f)
    ensures Walk(f, vs) && vs != [] && Cursor(vs) == None && Fixed(vs, table) && b !in Seen(vs) && !Complete(f, vs, table)
  {
    vs := FinishedWalk(f, table, 1, b);
  }
}
