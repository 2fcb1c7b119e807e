/** The paged evidence listing: its cursor, one page, and walks over many pages of a changing graph. */
module Pagination {
  import opened Wrappers
  import opened Decimal
  import opened Receipts
  import opened Graphs
  import opened Loaders
  import opened GraphHistory
  import opened GraphViews
  import Base64

  // ---- The cursor ----

  function AsText(b: Bytes): string {
    if b == [] then "" else [b[0] as char] + AsText(b[1..])
  }

  predicate Narrow(s: string) {
    forall i :: 0 <= i < |s| ==> s[i] as int < 256
  }

  function AsBytes(s: string): Bytes
    requires Narrow(s)
  {
    if s == [] then [] else [s[0] as int] + AsBytes(s[1..])
  }

  lemma {:induction false} TextRoundTrip(s: string)
    requires Narrow(s)
    ensures AsText(AsBytes(s)) == s
  {
    if s != [] {
      TextRoundTrip(s[1..]);
    }
  }

  lemma FormatIsNarrow(n: int64)
    ensures Narrow(FormatInt(n))
  {
    FormatIsAscii(n);
    forall i | 0 <= i < |FormatInt(n)| ensures FormatInt(n)[i] as int < 256 {
      assert FormatInt(n)[i] in FormatInt(n);
    }
  }

  function EncodeCursor(index: int64): string {
    FormatIsNarrow(index);
    Base64.Encode(AsBytes(FormatInt(index)))
  }

  /**
   * The lower bound a cursor stands for. Text that is no base64 is ignored; text that decodes but
   * is no number still bounds the query, by what the failed parse returns.
   */
  function CursorOf(cursor: Option<string>): Option<int> {
    match cursor
    case None => None
    case Some(text) =>
      match Base64.Decode(text)
      case None => None
      case Some(bytes) => Some(ParseInt(AsText(bytes)).value)
  }

  /** A cursor that the listing hands out is read back as the index it was made from. */
  lemma CursorRoundTrip(index: int64)
    ensures CursorOf(Some(EncodeCursor(index))) == Some(index)
  {
    FormatIsNarrow(index);
    Base64.EncodeDecode(AsBytes(FormatInt(index)));
    TextRoundTrip(FormatInt(index));
    FormatParse(index);
  }

  // ---- One page ----

  datatype Row = Row(logIndex: int64, digest: string, artifactType: string, status: string, sealed: int, publisher: Publisher)

  datatype Filter = Filter(artifactType: Option<string>, since: Option<int>, before: Option<int>)

  predicate Matches(r: Row, f: Filter) {
    && (f.artifactType.Some? ==> r.artifactType == f.artifactType.value)
    && (f.since.Some? ==> r.sealed >= f.since.value)
    && (f.before.Some? ==> r.sealed < f.before.value)
  }

  predicate Wanted(r: Row, f: Filter, after: Option<int>) {
    Matches(r, f) && (after.Some? ==> r.logIndex > after.value)
  }

  predicate Ascending(rows: seq<Row>) {
    forall i, j :: 0 <= i < j < |rows| ==> rows[i].logIndex <= rows[j].logIndex
  }

  ghost predicate NoRepeats(rows: seq<Row>) {
    forall i, j :: 0 <= i < j < |rows| ==> rows[i] != rows[j]
  }

  /** An answer the database may give: wanted rows in index order, at most `n`, and none left out below the last. */
  ghost predicate IsAnswer(table: set<Row>, f: Filter, after: Option<int>, n: nat, items: seq<Row>) {
    && |items| <= n && Ascending(items) && NoRepeats(items)
    && (forall r :: r in items ==> r in table && Wanted(r, f, after))
    && (forall r :: r in table && Wanted(r, f, after) && r !in items ==> |items| == n)
    && (forall r, i :: r in table && Wanted(r, f, after) && r !in items && 0 <= i < |items| ==> items[i].logIndex <= r.logIndex)
  }

  function LimitOf(limit: Option<int>): (n: nat)
    ensures n >= 1
  {
    if limit.Some? && limit.value > 0 then limit.value else 50
  }

  /** What the HTTP handler makes of its parameter before it asks for a page. */
  function HandlerLimit(limit: Option<int>): (n: int)
    ensures 1 <= n <= 200
  {
    match limit
    case None => 50
    case Some(n) => if n > 200 then 200 else if n < 1 then 1 else n
  }

  /** The page cut from an answer, and the cursor to the next one. */
  function PageOf(items: seq<Row>, limit: nat): seq<Row> {
    if |items| > limit then items[..limit] else items
  }

  function NextOf(items: seq<Row>, limit: nat): Option<string> {
    if |items| > limit > 0 then Some(EncodeCursor(items[limit - 1].logIndex)) else None
  }

  /** A page holds wanted rows only, in order and none twice. */
  lemma PageSound(table: set<Row>, f: Filter, after: Option<int>, limit: nat, items: seq<Row>)
    requires IsAnswer(table, f, after, limit + 1, items)
    ensures var page := PageOf(items, limit);
            Ascending(page) && NoRepeats(page) && |page| <= limit && forall r :: r in page ==> r in table && Wanted(r, f, after)
  {
  }

  /** If there is a next cursor, the page is full and the cursor is read back as its last index. */
  lemma PageCursor(items: seq<Row>, limit: nat)
    requires NextOf(items, limit).Some?
    ensures |PageOf(items, limit)| == limit > 0
    ensures CursorOf(NextOf(items, limit)) == Some(PageOf(items, limit)[limit - 1].logIndex)
  {
    CursorRoundTrip(items[limit - 1].logIndex);
  }

  /** Every wanted row is on the page, or there is a next page and the row is not below its cursor. */
  lemma PageComplete(table: set<Row>, f: Filter, after: Option<int>, limit: nat, items: seq<Row>, r: Row)
    requires IsAnswer(table, f, after, limit + 1, items) && limit >= 1
    requires r in table && Wanted(r, f, after) && r !in PageOf(items, limit)
    ensures |items| > limit && r.logIndex >= items[limit - 1].logIndex
  {
    if r in items {
      var k :| 0 <= k < |items| && items[k] == r;
      assert |items| > limit ==> forall j :: 0 <= j < limit ==> PageOf(items, limit)[j] == items[j];
    }
  }

  /**
   * One page. It asks for one row more than the page holds and cuts it off again if it comes. The
   * caller gets wanted rows in order, none twice; without a cursor all of them; with one, a full
   * page and a cursor that every wanted row not on the page reaches.
   */
  method Evidence(ghost table: set<Row>, ghost f: Filter, cursor: Option<string>, limit: Option<int>, items: seq<Row>)
    returns (page: seq<Row>, next: Option<string>)
    requires IsAnswer(table, f, CursorOf(cursor), LimitOf(limit) + 1, items)
    ensures page == PageOf(items, LimitOf(limit)) && next == NextOf(items, LimitOf(limit))
    ensures Ascending(page) && NoRepeats(page) && |page| <= LimitOf(limit)
    ensures next.None? ==> forall r :: r in table && Wanted(r, f, CursorOf(cursor)) ==> r in page
    ensures next.Some? ==> |page| == LimitOf(limit) && CursorOf(next) == Some(page[|page| - 1].logIndex)
  {
    var n := 50;
    if limit.Some? && limit.value > 0 {
      n := limit.value;
    }
    PageSound(table, f, CursorOf(cursor), n, items);
    if |items| > n {
      PageCursor(items, n);
      return items[..n], Some(EncodeCursor(items[n - 1].logIndex));
    }
    return items, None;
  }

  /**
   * No wanted row falls between a page and its cursor exactly when the row behind the page, if
   * there is one, has another log index than the page's last row.
   */
  lemma SplitIff(table: set<Row>, f: Filter, after: Option<int>, limit: nat, items: seq<Row>)
    requires IsAnswer(table, f, after, limit + 1, items) && |items| > limit >= 1
    ensures (forall r :: r in table && Wanted(r, f, after) && r !in items[..limit] ==> r.logIndex > items[limit - 1].logIndex)
       <==> items[limit].logIndex != items[limit - 1].logIndex
  {
    var page := items[..limit];
    assert forall j :: 0 <= j < limit ==> page[j] == items[j];
    assert items[limit] !in page;
    forall r | r in table && Wanted(r, f, after) && r !in page ensures r.logIndex >= items[limit].logIndex {
    }
  }

  // ---- Walks ----

  /** One request of a walk: the rows there were at the time, and what was asked and answered. */
  datatype Visit = Visit(table: set<Row>, limit: nat, items: seq<Row>) {
    function Page(): seq<Row> {
      PageOf(items, limit)
    }

    function Next(): Option<string> {
      NextOf(items, limit)
    }
  }

  /** The cursor a walk has reached. */
  function Cursor(vs: seq<Visit>): Option<string> {
    if vs == [] then None else vs[|vs| - 1].Next()
  }

  ghost predicate Answered(f: Filter, cursor: Option<string>, v: Visit) {
    v.limit >= 1 && IsAnswer(v.table, f, CursorOf(cursor), v.limit + 1, v.items)
  }

  /** Each request follows the cursor of the one before; limits may differ, rows may come and go. */
  ghost predicate Walk(f: Filter, vs: seq<Visit>) {
    vs == [] ||
    (var front := vs[..|vs| - 1];
     Walk(f, front) && (front != [] ==> Cursor(front).Some?) && Answered(f, Cursor(front), vs[|vs| - 1]))
  }

  function Seen(vs: seq<Visit>): seq<Row> {
    if vs == [] then [] else Seen(vs[..|vs| - 1]) + vs[|vs| - 1].Page()
  }

  /** No index has two matching rows. */
  ghost predicate OneRowEach(table: set<Row>, f: Filter) {
    forall a, b :: a in table && b in table && Matches(a, f) && Matches(b, f) && a.logIndex == b.logIndex ==> a == b
  }

  ghost predicate Below(rows: seq<Row>, bound: int) {
    forall i :: 0 <= i < |rows| ==> rows[i].logIndex <= bound
  }

  ghost predicate Above(rows: seq<Row>, bound: int) {
    forall i :: 0 <= i < |rows| ==> rows[i].logIndex > bound
  }

  /** What a caller can rely on about one answered request. */
  lemma AnsweredSound(f: Filter, cursor: Option<string>, v: Visit)
    requires Answered(f, cursor, v)
    ensures Ascending(v.Page()) && NoRepeats(v.Page()) && forall r :: r in v.Page() ==> r in v.table && Matches(r, f)
    ensures CursorOf(cursor).Some? ==> Above(v.Page(), CursorOf(cursor).value)
    ensures v.Next().Some? ==> |v.Page()| >= 1 && CursorOf(v.Next()) == Some(v.Page()[|v.Page()| - 1].logIndex)
  {
    PageSound(v.table, f, CursorOf(cursor), v.limit, v.items);
    forall i | 0 <= i < |v.Page()| ensures Wanted(v.Page()[i], f, CursorOf(cursor)) {
      assert v.Page()[i] in v.Page();
    }
    if v.Next().Some? {
      PageCursor(v.items, v.limit);
    }
  }

  /** What has been returned so far: ascending, none twice, nothing above the bound reached. */
  ghost predicate InOrder(rows: seq<Row>, bound: Option<int>) {
    Ascending(rows) && NoRepeats(rows) && (bound.Some? ==> Below(rows, bound.value))
  }

  lemma JoinPages(a: seq<Row>, b: seq<Row>, bound: int)
    requires Ascending(a) && NoRepeats(a) && Ascending(b) && NoRepeats(b) && Below(a, bound) && Above(b, bound)
    ensures Ascending(a + b) && NoRepeats(a + b)
    ensures b != [] ==> Below(a + b, b[|b| - 1].logIndex)
  {
  }

  lemma NextPage(rows: seq<Row>, bound: Option<int>, page: seq<Row>, next: Option<int>)
    requires InOrder(rows, bound) && (bound.None? ==> rows == []) && Ascending(page) && NoRepeats(page)
    requires bound.Some? ==> Above(page, bound.value)
    requires next.Some? ==> page != [] && next.value == page[|page| - 1].logIndex
    ensures InOrder(rows + page, next)
  {
    var b := if bound.Some? then bound.value else if page == [] then 0 else page[0].logIndex - 1;
    JoinPages(rows, page, b);
  }

  lemma VisitAscends(f: Filter, rows: seq<Row>, cursor: Option<string>, v: Visit)
    requires Answered(f, cursor, v) && InOrder(rows, CursorOf(cursor))
    requires (cursor.None? ==> rows == []) && (cursor.Some? ==> CursorOf(cursor).Some?)
    ensures InOrder(rows + v.Page(), CursorOf(v.Next())) && (v.Next().Some? ==> CursorOf(v.Next()).Some?)
  {
    AnsweredSound(f, cursor, v);
    NextPage(rows, CursorOf(cursor), v.Page(), CursorOf(v.Next()));
  }

  /**
   * Whatever is inserted or removed in between, a walk returns no row twice, in ascending order,
   * and everything it has returned lies at or below its next cursor.
   */
  lemma {:induction false} WalkAscends(f: Filter, vs: seq<Visit>)
    requires Walk(f, vs)
    ensures InOrder(Seen(vs), CursorOf(Cursor(vs))) && (Cursor(vs).Some? ==> CursorOf(Cursor(vs)).Some?)
  {
    if vs != [] {
      var front, v := vs[..|vs| - 1], vs[|vs| - 1];
      WalkAscends(f, front);
      VisitAscends(f, Seen(front), Cursor(front), v);
    }
  }

  /** The row is there at every request, and no index has two matching rows then. */
  ghost predicate Throughout(f: Filter, vs: seq<Visit>, r: Row) {
    forall k :: 0 <= k < |vs| ==> r in vs[k].table && OneRowEach(vs[k].table, f)
  }

  lemma StepAhead(f: Filter, cursor: Option<string>, v: Visit, r: Row)
    requires Answered(f, cursor, v) && r in v.table && OneRowEach(v.table, f) && Wanted(r, f, CursorOf(cursor)) && r !in v.Page()
    ensures CursorOf(v.Next()).Some? && r.logIndex > CursorOf(v.Next()).value
  {
    PageComplete(v.table, f, CursorOf(cursor), v.limit, v.items, r);
    PageCursor(v.items, v.limit);
    AnsweredSound(f, cursor, v);
    assert v.Page()[|v.Page()| - 1] in v.Page();
  }

  /** A row that is there throughout and has not been returned yet lies above the next cursor. */
  lemma {:induction false} StillAhead(f: Filter, vs: seq<Visit>, r: Row)
    requires Walk(f, vs) && Throughout(f, vs, r) && Matches(r, f) && r !in Seen(vs)
    ensures Wanted(r, f, CursorOf(Cursor(vs)))
    ensures vs != [] ==> CursorOf(Cursor(vs)).Some?
  {
    if vs != [] {
      var front, v := vs[..|vs| - 1], vs[|vs| - 1];
      StillAhead(f, front, r);
      StepAhead(f, Cursor(front), v, r);
    }
  }

  /**
   * Following the cursor until there is none returns every matching row that was there throughout,
   * exactly once and in ascending order, for all limits and any other rows coming and going, as
   * long as no log index has two matching rows.
   */
  lemma WalkComplete(f: Filter, vs: seq<Visit>, r: Row)
    requires Walk(f, vs) && vs != [] && Cursor(vs) == None && Throughout(f, vs, r) && Matches(r, f)
    ensures Once(Seen(vs), r) && Ascending(Seen(vs))
  {
    if r !in Seen(vs) {
      StillAhead(f, vs, r);
    }
    WalkAscends(f, vs);
    FoundOnce(Seen(vs), r);
  }

  ghost predicate Once(rows: seq<Row>, r: Row) {
    exists i :: 0 <= i < |rows| && rows[i] == r && forall j :: 0 <= j < |rows| && rows[j] == r ==> j == i
  }

  lemma FoundOnce(rows: seq<Row>, r: Row)
    requires r in rows && NoRepeats(rows)
    ensures Once(rows, r)
  {
    var i :| 0 <= i < |rows| && rows[i] == r;
    forall j | 0 <= j < |rows| && rows[j] == r ensures j == i {
    }
  }

  /** The rows are the same at every request. */
  ghost predicate Fixed(vs: seq<Visit>, table: set<Row>) {
    forall k :: 0 <= k < |vs| ==> vs[k].table == table
  }

  lemma WalkNext(f: Filter, vs: seq<Visit>, v: Visit)
    requires Walk(f, vs) && (vs != [] ==> Cursor(vs).Some?) && Answered(f, Cursor(vs), v)
    ensures Walk(f, vs + [v]) && Seen(vs + [v]) == Seen(vs) + v.Page() && Cursor(vs + [v]) == v.Next()
  {
    assert (vs + [v])[..|vs|] == vs;
  }

  lemma {:induction false} DistinctFit(rows: seq<Row>, table: set<Row>)
    requires NoRepeats(rows) && forall r :: r in rows ==> r in table
    ensures |rows| <= |table|
  {
    if rows != [] {
      var front, last := rows[..|rows| - 1], rows[|rows| - 1];
      forall r | r in front ensures r in table - {last} {
        assert r in rows;
      }
      DistinctFit(front, table - {last});
    }
  }

  lemma {:induction false} WalkFills(f: Filter, vs: seq<Visit>, table: set<Row>)
    requires Walk(f, vs) && Fixed(vs, table)
    ensures |Seen(vs)| + (if vs == [] || Cursor(vs).Some? then 0 else 1) >= |vs|
    ensures forall r :: r in Seen(vs) ==> r in table
  {
    if vs != [] {
      var front, v := vs[..|vs| - 1], vs[|vs| - 1];
      WalkFills(f, front, table);
      AnsweredSound(f, Cursor(front), v);
    }
  }

  /** Over rows that do not change, a walk is over after at most one page more than there are rows. */
  lemma WalkEnds(f: Filter, vs: seq<Visit>, table: set<Row>)
    requires Walk(f, vs) && Fixed(vs, table)
    ensures |vs| <= |table| + 1
  {
    WalkFills(f, vs, table);
    WalkAscends(f, vs);
    DistinctFit(Seen(vs), table);
  }

  // ---- The rows of a graph ----

  ghost predicate Shows(g: Graph, e: Node, name: string, v: Value) {
    (e, name) in g.props && g.props[(e, name)] == v
  }

  ghost predicate RowOf(g: Graph, subject: string, r: Row) {
    var e := EvidenceNode(r.logIndex);
    && Edge(e, "TARGETS", SubjectNode(subject)) in g.edges && Edge(e, "PUBLISHED_BY", PublisherNode(r.publisher)) in g.edges
    && Shows(g, e, "digest", Text(r.digest)) && Shows(g, e, "artifactType", Text(r.artifactType))
    && Shows(g, e, "status", Text(r.status)) && Shows(g, e, "sealed", Time(r.sealed))
  }

  // ---- What a row shows ----

  lemma {:induction false} TailProps(ws: seq<Write>, k: (Node, string))
    requires forall i :: 0 <= i < |ws| ==> ws[i].PutEntity? || ws[i].PutEdge?
    ensures k in Sum(ws).props ==> k.0.EntityNode?
  {
    if ws != [] {
      TailProps(ws[..|ws| - 1], k);
    }
  }

  lemma SealedProps(d: SealedData, p: Publisher, at: int, k: (Node, string))
    ensures var sum, e := Sum(SealedWrites(d, p, at)), EvidenceNode(d.logIndex);
            && (k in sum.props ==> k.0.EntityNode? || k.0 == e)
            && (k.0 == e && k.1 in EvidenceProps(EvidenceFor(d, p, at)) ==>
                  k in sum.props && sum.props[k] == EvidenceProps(EvidenceFor(d, p, at))[k.1])
  {
    var tail := ArtifactWrites(d.artifact, d.logIndex);
    TailAfterHead(d, p, at);
    HeadSum(d, p, at);
    ArtifactWriteKinds(d.artifact, d.logIndex);
    forall i | 0 <= i < |tail| ensures tail[i].PutEntity? || tail[i].PutEdge? {
      assert tail[i] in tail;
    }
    TailProps(tail, k);
  }

  /** An event sets properties of entities, and of the evidence at its own index only. */
  lemma JobProps(job: Job, k: (Node, string))
    ensures k in Sum(Writes(job)).props ==> k.0.EntityNode? || (job.Sealed? && k.0 == EvidenceNode(job.d.logIndex))
  {
    match job
    case Registered(subject) =>
      assert [PutSubject(subject)][..0] == [];
      assert Sum([PutSubject(subject)]).props == map[];
    case Ingested(subject, digest, p) =>
      SumOfThree(PutSubject(subject), PutPublisher(p), PutStub(digest, subject, p));
      assert Sum(IngestedWrites(subject, digest, p)).props == map[];
    case Sealed(d, p, at) => SealedProps(d, p, at, k);
  }

  lemma ShowsWritten(g: Graph, d: SealedData, p: Publisher, at: int, name: string)
    requires name in EvidenceProps(EvidenceFor(d, p, at))
    ensures Shows(ExecAll(g, SealedWrites(d, p, at)), EvidenceNode(d.logIndex), name, EvidenceProps(EvidenceFor(d, p, at))[name])
  {
    JobGrounded(Sealed(d, p, at));
    GroundedAdds(g, {}, SealedWrites(d, p, at));
    SealedProps(d, p, at, (EvidenceNode(d.logIndex), name));
  }

  /** Only an event at the same index changes what the evidence shows. */
  lemma ShowsSame(g: Graph, job: Job, i: int, name: string, v: Value)
    requires job.Sealed? ==> job.d.logIndex != i
    ensures Shows(ExecAll(g, Writes(job)), EvidenceNode(i), name, v) <==> Shows(g, EvidenceNode(i), name, v)
  {
    JobGrounded(job);
    GroundedAdds(g, {}, Writes(job));
    JobProps(job, (EvidenceNode(i), name));
  }

  /** The k-th event is the last one processed at this log index. */
  ghost predicate IsLast(jobs: seq<Job>, k: nat, i: int) {
    && k < |jobs| && jobs[k].Sealed? && jobs[k].d.logIndex == i
    && forall j :: k < j < |jobs| && jobs[j].Sealed? ==> jobs[j].d.logIndex != i
  }

  function PropsOf(job: Job): map<string, Value>
    requires job.Sealed?
  {
    EvidenceProps(EvidenceFor(job.d, job.p, job.at))
  }

  /** The last event at the index sets this property to this value. */
  ghost predicate LastSets(jobs: seq<Job>, i: int, name: string, v: Value) {
    exists k: nat :: IsLast(jobs, k, i) && name in PropsOf(jobs[k]) && PropsOf(jobs[k])[name] == v
  }

  lemma LastSetsNext(jobs: seq<Job>, job: Job, i: int, name: string, v: Value)
    ensures LastSets(jobs + [job], i, name, v) <==>
              if job.Sealed? && job.d.logIndex == i then name in PropsOf(job) && PropsOf(job)[name] == v
              else LastSets(jobs, i, name, v)
  {
    var all := jobs + [job];
    if job.Sealed? && job.d.logIndex == i {
      assert all[|jobs|] == job && IsLast(all, |jobs|, i);
      forall k: nat | IsLast(all, k, i) ensures k == |jobs| {
      }
    } else {
      forall k: nat ensures IsLast(all, k, i) <==> IsLast(jobs, k, i) {
        assert forall j :: 0 <= j < |jobs| ==> all[j] == jobs[j];
        assert k == |jobs| ==> all[k] == job;
      }
      if k: nat :| IsLast(jobs, k, i) && name in PropsOf(jobs[k]) && PropsOf(jobs[k])[name] == v {
        assert IsLast(all, k, i) && all[k] == jobs[k];
      }
    }
  }

  predicate IsField(name: string) {
    name == "digest" || name == "artifactType" || name == "status" || name == "sealed"
  }

  lemma ShowsNext(g: Graph, job: Job, i: int, name: string, v: Value)
    requires IsField(name)
    ensures Shows(ExecAll(g, Writes(job)), EvidenceNode(i), name, v) <==>
              if job.Sealed? && job.d.logIndex == i then name in PropsOf(job) && PropsOf(job)[name] == v
              else Shows(g, EvidenceNode(i), name, v)
  {
    if job.Sealed? && job.d.logIndex == i {
      ShowsWritten(g, job.d, job.p, job.at, name);
    } else {
      ShowsSame(g, job, i, name, v);
    }
  }

  ghost predicate ShowsLast(g: Graph, jobs: seq<Job>, i: int, name: string, v: Value) {
    Shows(g, EvidenceNode(i), name, v) <==> LastSets(jobs, i, name, v)
  }

  lemma ShowsStep(jobs: seq<Job>, i: int, name: string, v: Value)
    requires IsField(name) && jobs != []
    requires ShowsLast(Replay(EMPTY, jobs[..|jobs| - 1]), jobs[..|jobs| - 1], i, name, v)
    ensures ShowsLast(ExecAll(Replay(EMPTY, jobs[..|jobs| - 1]), Writes(jobs[|jobs| - 1])), jobs, i, name, v)
  {
    var front, last := jobs[..|jobs| - 1], jobs[|jobs| - 1];
    assert jobs == front + [last];
    LastSetsNext(front, last, i, name, v);
    ShowsNext(Replay(EMPTY, front), last, i, name, v);
  }

  /** What the evidence at an index shows after a history is what the last event at that index says. */
  lemma {:induction false} ShowsIff(jobs: seq<Job>, i: int, name: string, v: Value)
    requires IsField(name)
    ensures ShowsLast(Replay(EMPTY, jobs), jobs, i, name, v)
  {
    if jobs != [] {
      ShowsIff(jobs[..|jobs| - 1], i, name, v);
      ShowsStep(jobs, i, name, v);
    }
  }

  /** The row of a sealed event for a given publisher. */
  function RowFor(d: SealedData, p: Publisher, at: int): Row
    requires MIN_INT64 <= d.logIndex <= MAX_INT64
  {
    Row(d.logIndex, d.contentDigest, d.artifactType, "sealed", at, p)
  }

  ghost predicate PublishedAt(jobs: seq<Job>, i: int, p: Publisher) {
    exists job :: job in jobs && job.Sealed? && job.d.logIndex == i && job.p == p
  }

  /** The last event at the row's index says what the row says, publisher aside. */
  ghost predicate LastSays(jobs: seq<Job>, r: Row) {
    exists k: nat :: IsLast(jobs, k, r.logIndex) && r == RowFor(jobs[k].d, r.publisher, jobs[k].at)
  }

  lemma FieldsIff(jobs: seq<Job>, r: Row)
    ensures LastSays(jobs, r) <==>
              && LastSets(jobs, r.logIndex, "digest", Text(r.digest)) && LastSets(jobs, r.logIndex, "artifactType", Text(r.artifactType))
              && LastSets(jobs, r.logIndex, "status", Text(r.status)) && LastSets(jobs, r.logIndex, "sealed", Time(r.sealed))
  {
    forall j: nat, k: nat | IsLast(jobs, j, r.logIndex) && IsLast(jobs, k, r.logIndex) ensures j == k {
    }
    if k: nat :| IsLast(jobs, k, r.logIndex) && r == RowFor(jobs[k].d, r.publisher, jobs[k].at) {
      assert PropsOf(jobs[k])["digest"] == Text(r.digest) && PropsOf(jobs[k])["sealed"] == Time(r.sealed);
    }
  }

  /**
   * The listing, exactly: a subject's row at an index shows any publisher that some event at that
   * index was attributed to, together with the digest, type and time of the last event at that index,
   * whoever's it was, once the subject has an event at that index itself.
   */
  lemma RowIff(jobs: seq<Job>, subject: string, r: Row)
    ensures RowOf(Replay(EMPTY, jobs), subject, r)
       <==> SealedFor(jobs, subject, r.logIndex) && PublishedAt(jobs, r.logIndex, r.publisher) && LastSays(jobs, r)
  {
    TargetsIff(jobs, r.logIndex, subject);
    PublishedBy(jobs, r.logIndex, r.publisher);
    ShowsIff(jobs, r.logIndex, "digest", Text(r.digest));
    ShowsIff(jobs, r.logIndex, "artifactType", Text(r.artifactType));
    ShowsIff(jobs, r.logIndex, "status", Text(r.status));
    ShowsIff(jobs, r.logIndex, "sealed", Time(r.sealed));
    FieldsIff(jobs, r);
  }

  /** No index has two matching rows of this subject. */
  ghost predicate OneRowPerIndex(g: Graph, subject: string, f: Filter) {
    forall a, b :: RowOf(g, subject, a) && RowOf(g, subject, b) && Matches(a, f) && Matches(b, f) && a.logIndex == b.logIndex ==> a == b
  }

  /** The last event at the index is one the filter lets through. */
  ghost predicate LastMatches(jobs: seq<Job>, i: int64, f: Filter) {
    exists k: nat :: IsLast(jobs, k, i) && Matches(RowFor(jobs[k].d, jobs[k].p, jobs[k].at), f)
  }

  /** Events at an index where this subject has one, and whose last matches, were all attributed to one publisher. */
  ghost predicate OnePublisherEach(jobs: seq<Job>, subject: string, f: Filter) {
    forall i: int64, p, q :: SealedFor(jobs, subject, i) && LastMatches(jobs, i, f) && PublishedAt(jobs, i, p) && PublishedAt(jobs, i, q)
      ==> p == q
  }

  lemma TwoPublishersTwoRows(jobs: seq<Job>, subject: string, f: Filter, i: int64, p: Publisher, q: Publisher)
    requires SealedFor(jobs, subject, i) && LastMatches(jobs, i, f) && PublishedAt(jobs, i, p) && PublishedAt(jobs, i, q) && p != q
    ensures !OneRowPerIndex(Replay(EMPTY, jobs), subject, f)
  {
    var k: nat :| IsLast(jobs, k, i) && Matches(RowFor(jobs[k].d, jobs[k].p, jobs[k].at), f);
    var a, b := RowFor(jobs[k].d, p, jobs[k].at), RowFor(jobs[k].d, q, jobs[k].at);
    assert LastSays(jobs, a) && LastSays(jobs, b);
    RowIff(jobs, subject, a);
    RowIff(jobs, subject, b);
  }

  /**
   * When pages can be relied on: a subject has one matching row per index exactly when, at every index
   * where it has an event and the last event matches, all events of whatever subject were attributed
   * to one publisher.
   */
  lemma OneRowIff(jobs: seq<Job>, subject: string, f: Filter)
    ensures OneRowPerIndex(Replay(EMPTY, jobs), subject, f) <==> OnePublisherEach(jobs, subject, f)
  {
    if OnePublisherEach(jobs, subject, f) {
      forall a, b | RowOf(Replay(EMPTY, jobs), subject, a) && RowOf(Replay(EMPTY, jobs), subject, b)
                 && Matches(a, f) && Matches(b, f) && a.logIndex == b.logIndex
        ensures a == b
      {
        RowIff(jobs, subject, a);
        RowIff(jobs, subject, b);
        RowMatches(jobs, a, f);
        SameLast(jobs, a, b);
      }
    } else {
      var i: int64, p, q :| SealedFor(jobs, subject, i) && LastMatches(jobs, i, f) && PublishedAt(jobs, i, p) && PublishedAt(jobs, i, q) && p != q;
      TwoPublishersTwoRows(jobs, subject, f, i, p, q);
    }
  }

  lemma RowMatches(jobs: seq<Job>, r: Row, f: Filter)
    requires LastSays(jobs, r) && Matches(r, f)
    ensures LastMatches(jobs, r.logIndex, f)
  {
  }

  lemma SameLast(jobs: seq<Job>, a: Row, b: Row)
    requires LastSays(jobs, a) && LastSays(jobs, b) && a.logIndex == b.logIndex && a.publisher == b.publisher
    ensures a == b
  {
    var j: nat :| IsLast(jobs, j, a.logIndex) && a == RowFor(jobs[j].d, a.publisher, jobs[j].at);
    var k: nat :| IsLast(jobs, k, b.logIndex) && b == RowFor(jobs[k].d, b.publisher, jobs[k].at);
    assert j == k;
  }

  /** So one subject's listing shows another subject's digest, type and time. */
  lemma ListingLeaks(a: SealedData, p: Publisher, at: int, b: SealedData, q: Publisher, at': int)
    requires a.subject != b.subject && a.logIndex == b.logIndex && MIN_INT64 <= a.logIndex <= MAX_INT64
    ensures RowOf(Replay(EMPTY, [Sealed(a, p, at), Sealed(b, q, at')]), a.subject, RowFor(b, p, at'))
  {
    var jobs := [Sealed(a, p, at), Sealed(b, q, at')];
    assert jobs[0] in jobs && IsLast(jobs, 1, a.logIndex);
    RowIff(jobs, a.subject, RowFor(b, p, at'));
  }
}
