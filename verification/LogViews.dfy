/** The queries over the scenario_events table: the row of a scenario
    (cmd/api/handlers/scenarios.go, cmd/worker/reporting.go), its history, the list
    of all scenarios and the counts (cmd/api/handlers/status.go). Row ids are
    unique; timestamps are arbitrary. */
module LogViews {
  import opened Basics

  /** A JSON document: its status key, if it has one, and everything else. */
  datatype Payload = Payload(status: Option<string>, rest: string)

  datatype Row = Row(id: nat, sid: string, payload: Payload, created: int)

  predicate UniqueIds(table: seq<Row>) { forall i, j :: 0 <= i < j < |table| ==> table[i].id != table[j].id }

  // ----- ORDER BY -----

  function Insert<T>(x: T, xs: seq<T>, before: (T, T) -> bool): seq<T> {
    if |xs| == 0 || before(x, xs[0]) then [x] + xs else [xs[0]] + Insert(x, xs[1..], before)
  }

  function OrderBy<T>(xs: seq<T>, before: (T, T) -> bool): seq<T> {
    if |xs| == 0 then [] else Insert(xs[0], OrderBy(xs[1..], before), before)
  }

  ghost predicate Sorted<T>(xs: seq<T>, before: (T, T) -> bool) {
    forall i, j :: 0 <= i < j < |xs| ==> before(xs[i], xs[j])
  }

  /** A strict order that is total on the elements of a sequence without duplicates. */
  ghost predicate Orders<T(!new)>(before: (T, T) -> bool, xs: seq<T>) {
    && (forall a, b, c :: before(a, b) && before(b, c) ==> before(a, c))
    && (forall i, j :: 0 <= i < |xs| && 0 <= j < |xs| && i != j ==> before(xs[i], xs[j]) || before(xs[j], xs[i]))
  }

  lemma {:induction false} InsertPermutes<T>(x: T, xs: seq<T>, before: (T, T) -> bool)
    ensures multiset(Insert(x, xs, before)) == multiset{x} + multiset(xs)
  {
    if |xs| == 0 || before(x, xs[0]) {
    } else {
      InsertPermutes(x, xs[1..], before);
      assert xs == [xs[0]] + xs[1..];
    }
  }

  lemma {:induction false} OrderByPermutes<T>(xs: seq<T>, before: (T, T) -> bool)
    ensures multiset(OrderBy(xs, before)) == multiset(xs)
  {
    if |xs| == 0 {
    } else {
      OrderByPermutes(xs[1..], before);
      InsertPermutes(xs[0], OrderBy(xs[1..], before), before);
      assert xs == [xs[0]] + xs[1..];
    }
  }

  lemma SameElements<T>(xs: seq<T>, ys: seq<T>)
    requires multiset(xs) == multiset(ys)
    ensures |xs| == |ys| && forall x :: x in xs <==> x in ys
  {
    assert |multiset(xs)| == |xs| && |multiset(ys)| == |ys|;
    forall x
      ensures x in xs <==> x in ys
    {
      assert x in xs <==> x in multiset(xs);
      assert x in ys <==> x in multiset(ys);
    }
  }

  lemma {:induction false} InsertSorts<T(!new)>(x: T, xs: seq<T>, before: (T, T) -> bool)
    requires forall a, b, c :: before(a, b) && before(b, c) ==> before(a, c)
    requires forall y :: y in xs ==> before(x, y) || before(y, x)
    requires Sorted(xs, before)
    ensures Sorted(Insert(x, xs, before), before)
  {
    if |xs| == 0 {
    } else {
      if before(x, xs[0]) {
        forall j | 0 <= j < |xs|
          ensures before(x, xs[j])
        {
          if j > 0 { assert before(xs[0], xs[j]); }
        }
      } else {
        InsertSorts(x, xs[1..], before);
        var rest := Insert(x, xs[1..], before);
        InsertPermutes(x, xs[1..], before);
        assert multiset(rest) == multiset([x] + xs[1..]);
        SameElements(rest, [x] + xs[1..]);
        forall j | 0 <= j < |rest|
          ensures before(xs[0], rest[j])
        {
          assert rest[j] in rest;
          assert rest[j] in [x] + xs[1..];
        }
      }
    }
  }

  lemma {:induction false} OrderBySorts<T(!new)>(xs: seq<T>, before: (T, T) -> bool)
    requires Orders(before, xs)
    ensures Sorted(OrderBy(xs, before), before)
  {
    if |xs| == 0 {
    } else {
      OrderBySorts(xs[1..], before);
      OrderByPermutes(xs[1..], before);
      SameElements(OrderBy(xs[1..], before), xs[1..]);
      forall y | y in OrderBy(xs[1..], before)
        ensures before(xs[0], y) || before(y, xs[0])
      {
        var k :| 0 <= k < |xs[1..]| && xs[1..][k] == y;
        assert xs[k + 1] == y;
      }
      InsertSorts(xs[0], OrderBy(xs[1..], before), before);
    }
  }

  // ----- The orders in use -----

  /** ORDER BY created_at DESC, id DESC puts a before b. */
  predicate Newer(a: Row, b: Row) { a.created > b.created || (a.created == b.created && a.id > b.id) }

  predicate StringLess(a: string, b: string) {
    |b| > 0 && (|a| == 0 || a[0] < b[0] || (a[0] == b[0] && StringLess(a[1..], b[1..])))
  }

  lemma {:induction false} StringLessTotal(a: string, b: string)
    ensures a == b || StringLess(a, b) || StringLess(b, a)
  {
    if |a| == 0 || |b| == 0 || a[0] != b[0] {
    } else {
      StringLessTotal(a[1..], b[1..]);
      assert a == [a[0]] + a[1..] && b == [b[0]] + b[1..];
    }
  }

  lemma {:induction false} StringLessTransitive(a: string, b: string, c: string)
    requires StringLess(a, b) && StringLess(b, c)
    ensures StringLess(a, c)
  {
    if |a| == 0 || a[0] != b[0] || b[0] != c[0] {
    } else {
      StringLessTransitive(a[1..], b[1..], c[1..]);
    }
  }

  lemma {:induction false} StringLessIrreflexive(a: string)
    ensures !StringLess(a, a)
  {
    if |a| == 0 {
    } else {
      StringLessIrreflexive(a[1..]);
    }
  }

  /** ORDER BY scenario_id, created_at DESC, id DESC. */
  predicate GroupedNewer(a: Row, b: Row) { StringLess(a.sid, b.sid) || (a.sid == b.sid && Newer(a, b)) }

  function NewestFirst(): (Row, Row) -> bool { (a: Row, b: Row) => Newer(a, b) }

  function OldestFirst(): (Row, Row) -> bool { (a: Row, b: Row) => Newer(b, a) }

  function ByScenario(): (Row, Row) -> bool { (a: Row, b: Row) => GroupedNewer(a, b) }

  lemma OrdersAreOrders(table: seq<Row>)
    requires UniqueIds(table)
    ensures Orders(NewestFirst(), table) && Orders(OldestFirst(), table) && Orders(ByScenario(), table)
  {
    forall a: Row, b: Row, c: Row | GroupedNewer(a, b) && GroupedNewer(b, c)
      ensures GroupedNewer(a, c)
    {
      if StringLess(a.sid, b.sid) && StringLess(b.sid, c.sid) {
        StringLessTransitive(a.sid, b.sid, c.sid);
      }
    }
    forall i, j | 0 <= i < |table| && 0 <= j < |table| && i != j
      ensures GroupedNewer(table[i], table[j]) || GroupedNewer(table[j], table[i])
    {
      StringLessTotal(table[i].sid, table[j].sid);
    }
  }

  // ----- The queries -----

  /** WHERE scenario_id = $1 */
  function Where(table: seq<Row>, sid: string): seq<Row> {
    if |table| == 0 then []
    else Where(table[..|table| - 1], sid) + (if table[|table| - 1].sid == sid then [table[|table| - 1]] else [])
  }

  /** The row query of the API, of StopScenario and of the worker: newest first,
      LIMIT 1. */
  function Get(table: seq<Row>, sid: string): Option<Row> {
    var rows := OrderBy(Where(table, sid), NewestFirst());
    if |rows| == 0 then None else Some(rows[0])
  }

  /** The events query: a scenario's rows, oldest first. */
  function Events(table: seq<Row>, sid: string): seq<Row> { OrderBy(Where(table, sid), OldestFirst()) }

  /** DISTINCT ON (scenario_id) over sorted rows: the first of every group. */
  function FirstOfEach(rows: seq<Row>): seq<Row> {
    if |rows| == 0 then []
    else
      var n := |rows| - 1;
      FirstOfEach(rows[..n]) + (if n == 0 || rows[n - 1].sid != rows[n].sid then [rows[n]] else [])
  }

  /** The subquery shared by the list and the counts: one row per scenario. */
  function DistinctLatest(table: seq<Row>): seq<Row> { FirstOfEach(OrderBy(table, ByScenario())) }

  const LIMIT: nat := 50

  /** A result the list query may return: the outer ORDER BY created_at DESC leaves
      the order of equal timestamps open. */
  ghost predicate IsListing(table: seq<Row>, rows: seq<Row>) {
    var all := DistinctLatest(table);
    && |rows| == (if |all| < LIMIT then |all| else LIMIT)
    && (forall i :: 0 <= i < |rows| ==> rows[i] in all)
    && (forall i, j :: 0 <= i < j < |rows| ==> rows[i] != rows[j] && rows[i].created >= rows[j].created)
    && (forall r, i :: r in all && r !in rows && 0 <= i < |rows| ==> r.created <= rows[i].created)
  }

  function HasStatus(status: string): Row -> bool { (r: Row) => r.payload.status == Some(status) }

  /** COUNT(*) FILTER (WHERE payload->>'status' = ...) over the same subquery. */
  function StatusCount(table: seq<Row>, status: string): nat { Count(DistinctLatest(table), HasStatus(status)) }

  // ----- What they mean -----

  /** The newest row of a scenario. */
  ghost predicate IsLatest(table: seq<Row>, sid: string, r: Row) {
    r in table && r.sid == sid && forall q :: q in table && q.sid == sid ==> q == r || Newer(r, q)
  }

  /** A row of the table before its last one, whose id is another. */
  lemma OtherId(table: seq<Row>, r: Row)
    requires |table| > 0 && UniqueIds(table) && r in table[..|table| - 1]
    ensures r.id != table[|table| - 1].id
  {
    var n := |table| - 1;
    var k :| 0 <= k < n && table[..n][k] == r;
    assert table[k] == r;
  }

  lemma OneMoreUnique(rows: seq<Row>, r: Row)
    requires UniqueIds(rows) && forall q :: q in rows ==> q.id != r.id
    ensures UniqueIds(rows + [r])
  {
    forall i, j | 0 <= i < j < |rows + [r]|
      ensures (rows + [r])[i].id != (rows + [r])[j].id
    {
      if j == |rows| { assert rows[i] in rows; }
    }
  }

  lemma {:induction false} WhereMeans(table: seq<Row>, sid: string)
    ensures forall r :: r in Where(table, sid) <==> r in table && r.sid == sid
    ensures UniqueIds(table) ==> UniqueIds(Where(table, sid))
  {
    if |table| == 0 {
    } else {
      var n := |table| - 1;
      WhereMeans(table[..n], sid);
      assert table == table[..n] + [table[n]];
      if UniqueIds(table) {
        forall r | r in Where(table[..n], sid)
          ensures r.id != table[n].id
        {
          OtherId(table, r);
        }
        OneMoreUnique(Where(table[..n], sid), table[n]);
      }
    }
  }

  lemma GetIsLatest(table: seq<Row>, sid: string)
    requires UniqueIds(table)
    ensures match Get(table, sid)
            case Some(r) => IsLatest(table, sid, r)
            case None => forall r :: r in table ==> r.sid != sid
    ensures Get(table, sid).Some? ==>
              var r := Get(table, sid).value;
              && r in table && r.sid == sid
              && forall q :: q in table && q.sid == sid ==>
                   (q.created < r.created || (q.created == r.created && q.id <= r.id))
  {
    var w := Where(table, sid);
    WhereMeans(table, sid);
    OrdersAreOrders(w);
    OrderBySorts(w, NewestFirst());
    OrderByPermutes(w, NewestFirst());
    var rows := OrderBy(w, NewestFirst());
    SameElements(rows, w);
    if |rows| > 0 {
      assert rows[0] in rows;
      forall q | q in table && q.sid == sid
        ensures q == rows[0] || Newer(rows[0], q)
      {
        assert q in rows;
        var k :| 0 <= k < |rows| && rows[k] == q;
        if k > 0 { assert NewestFirst()(rows[0], rows[k]); }
      }
    } else {
      assert rows == [] && forall r :: r in w ==> r in rows;
    }
  }

  lemma LatestIsUnique(table: seq<Row>, sid: string, a: Row, b: Row)
    requires IsLatest(table, sid, a) && IsLatest(table, sid, b)
    ensures a == b
  {
  }

  lemma HistoryIsChronological(table: seq<Row>, sid: string)
    requires UniqueIds(table)
    ensures var h := Events(table, sid);
            && (forall r :: r in h <==> r in table && r.sid == sid)
            && (forall i, j :: 0 <= i < j < |h| ==> Newer(h[j], h[i]))
  {
    var w := Where(table, sid);
    WhereMeans(table, sid);
    OrdersAreOrders(w);
    OrderBySorts(w, OldestFirst());
    OrderByPermutes(w, OldestFirst());
    var h := Events(table, sid);
    SameElements(h, w);
    hide Orders, UniqueIds, Where, OrderBy, Newer;
    forall i, j | 0 <= i < j < |h|
      ensures Newer(h[j], h[i])
    {
      assert OldestFirst()(h[i], h[j]);
    }
  }

  /** The history of a scenario is all its rows in chronological order, and its last
      row is the one the row query returns. */
  lemma HistoryEndsWithLatest(table: seq<Row>, sid: string)
    requires UniqueIds(table)
    ensures var h := Events(table, sid);
            && (forall r :: r in h <==> r in table && r.sid == sid)
            && (forall i, j :: 0 <= i < j < |h| ==> Newer(h[j], h[i]))
            && (forall i, j :: 0 <= i < j < |h| ==>
                  h[i].created < h[j].created || (h[i].created == h[j].created && h[i].id < h[j].id))
            && Get(table, sid) == (if |h| == 0 then None else Some(h[|h| - 1]))
  {
    HistoryIsChronological(table, sid);
    GetIsLatest(table, sid);
    hide Events, Get, Newer, UniqueIds;
    var h := Events(table, sid);
    if |h| > 0 {
      var last := h[|h| - 1];
      assert last in h;
      forall q | q in table && q.sid == sid
        ensures q == last || Newer(last, q)
      {
        assert q in h;
      }
      assert IsLatest(table, sid, last);
      LatestIsUnique(table, sid, last, Get(table, sid).value);
    } else {
      assert forall r :: r in table ==> r.sid != sid;
    }
  }

  /** Nothing of the same scenario comes before position k. */
  predicate FirstAt(rows: seq<Row>, k: nat) {
    k < |rows| && forall j :: 0 <= j < k ==> rows[j].sid != rows[k].sid
  }

  lemma GroupsAreContiguous(rows: seq<Row>, j: nat, n: nat)
    requires Sorted(rows, ByScenario()) && j < n < |rows| && rows[j].sid == rows[n].sid
    ensures rows[n - 1].sid == rows[n].sid
  {
    if j < n - 1 {
      var a, b, c := rows[j], rows[n - 1], rows[n];
      assert ByScenario()(a, b) && ByScenario()(b, c);
      if StringLess(a.sid, b.sid) && StringLess(b.sid, c.sid) {
        StringLessTransitive(a.sid, b.sid, c.sid);
      }
      StringLessIrreflexive(a.sid);
    }
  }

  lemma NewGroup(rows: seq<Row>, n: nat)
    requires Sorted(rows, ByScenario()) && n < |rows|
    ensures (n == 0 || rows[n - 1].sid != rows[n].sid) <==> FirstAt(rows, n)
  {
    if n == 0 || rows[n - 1].sid != rows[n].sid {
      forall j | 0 <= j < n
        ensures rows[j].sid != rows[n].sid
      {
        if rows[j].sid == rows[n].sid {
          GroupsAreContiguous(rows, j, n);
        }
      }
    }
  }

  lemma {:induction false} FirstOfEachHas(rows: seq<Row>, k: nat)
    requires Sorted(rows, ByScenario()) && FirstAt(rows, k)
    ensures rows[k] in FirstOfEach(rows)
  {
    var n := |rows| - 1;
    NewGroup(rows, n);
    if k == n {
    } else {
      assert rows[..n][k] == rows[k];
      FirstOfEachHas(rows[..n], k);
    }
  }

  lemma {:induction false} FirstOfEachOnly(rows: seq<Row>, i: nat) returns (k: nat)
    requires Sorted(rows, ByScenario()) && i < |FirstOfEach(rows)|
    ensures FirstAt(rows, k) && rows[k] == FirstOfEach(rows)[i]
  {
    var n := |rows| - 1;
    NewGroup(rows, n);
    if i < |FirstOfEach(rows[..n])| {
      k := FirstOfEachOnly(rows[..n], i);
      assert forall j :: 0 <= j < n ==> rows[..n][j] == rows[j];
    } else {
      k := n;
    }
  }

  lemma {:induction false} FirstOfEachDistinct(rows: seq<Row>)
    requires Sorted(rows, ByScenario())
    ensures forall i, j :: 0 <= i < j < |FirstOfEach(rows)| ==> FirstOfEach(rows)[i].sid != FirstOfEach(rows)[j].sid
  {
    if |rows| == 0 {
    } else {
      var n := |rows| - 1;
      FirstOfEachDistinct(rows[..n]);
      NewGroup(rows, n);
      forall i | 0 <= i < |FirstOfEach(rows[..n])| && FirstAt(rows, n)
        ensures FirstOfEach(rows[..n])[i].sid != rows[n].sid
      {
        var k := FirstOfEachOnly(rows[..n], i);
        assert rows[k] == rows[..n][k];
      }
    }
  }

  lemma SortedTable(table: seq<Row>)
    requires UniqueIds(table)
    ensures Sorted(OrderBy(table, ByScenario()), ByScenario())
    ensures forall r :: r in OrderBy(table, ByScenario()) <==> r in table
  {
    OrdersAreOrders(table);
    OrderBySorts(table, ByScenario());
    OrderByPermutes(table, ByScenario());
    SameElements(OrderBy(table, ByScenario()), table);
  }

  lemma FirstIsLatest(table: seq<Row>, rows: seq<Row>, k: nat)
    requires Sorted(rows, ByScenario()) && (forall r :: r in rows <==> r in table)
    requires FirstAt(rows, k)
    ensures IsLatest(table, rows[k].sid, rows[k])
  {
    forall q | q in table && q.sid == rows[k].sid
      ensures q == rows[k] || Newer(rows[k], q)
    {
      assert q in rows;
      var m :| 0 <= m < |rows| && rows[m] == q;
      StringLessIrreflexive(q.sid);
      if m > k { assert ByScenario()(rows[k], rows[m]); }
    }
  }

  lemma {:induction false} FirstPosition(rows: seq<Row>, m: nat) returns (k: nat)
    requires m < |rows|
    ensures k <= m && rows[k].sid == rows[m].sid && FirstAt(rows, k)
  {
    if p :| 0 <= p < m && rows[p].sid == rows[m].sid {
      k := FirstPosition(rows, p);
    } else {
      k := m;
    }
  }

  /** The subquery has exactly one row for every scenario of the table, and it is
      the row the row query returns. */
  lemma DistinctLatestMeans(table: seq<Row>)
    requires UniqueIds(table)
    ensures var all := DistinctLatest(table);
            && (forall r :: r in all <==> Get(table, r.sid) == Some(r))
            && (forall i, j :: 0 <= i < j < |all| ==> all[i].sid != all[j].sid)
  {
    var rows := OrderBy(table, ByScenario());
    SortedTable(table);
    FirstOfEachDistinct(rows);
    hide Get, FirstOfEach, OrderBy, Sorted;
    var all := DistinctLatest(table);
    forall r
      ensures r in all <==> Get(table, r.sid) == Some(r)
    {
      GetIsLatest(table, r.sid);
      if r in all {
        var i :| 0 <= i < |all| && all[i] == r;
        var k := FirstOfEachOnly(rows, i);
        FirstIsLatest(table, rows, k);
        assert r in rows;
        LatestIsUnique(table, r.sid, r, Get(table, r.sid).value);
      }
      if Get(table, r.sid) == Some(r) {
        assert r in rows;
        var m :| 0 <= m < |rows| && rows[m] == r;
        var k := FirstPosition(rows, m);
        FirstIsLatest(table, rows, k);
        FirstOfEachHas(rows, k);
        LatestIsUnique(table, r.sid, r, rows[k]);
      }
    }
  }

  /** Everything the list shows is a scenario's latest row, with no scenario twice;
      a scenario is missing only from a full list, and is then no newer than any row
      on it. */
  lemma ListingMeans(table: seq<Row>, rows: seq<Row>, sid: string)
    requires UniqueIds(table) && IsListing(table, rows)
    ensures forall i :: 0 <= i < |rows| ==> Get(table, rows[i].sid) == Some(rows[i])
    ensures forall i, j :: 0 <= i < j < |rows| ==> rows[i].sid != rows[j].sid
    ensures match Get(table, sid)
            case None => forall i :: 0 <= i < |rows| ==> rows[i].sid != sid
            case Some(r) =>
              r in rows || (|rows| == 50 && forall i :: 0 <= i < |rows| ==> r.created <= rows[i].created)
    ensures |rows| <= 50 && forall i, j :: 0 <= i < j < |rows| ==> rows[i].created >= rows[j].created
  {
    DistinctLatestMeans(table);
    var all := DistinctLatest(table);
    forall i | 0 <= i < |rows|
      ensures Get(table, rows[i].sid) == Some(rows[i])
    {
      assert rows[i] in all;
    }
    forall i, j | 0 <= i < j < |rows|
      ensures rows[i].sid != rows[j].sid
    {
      assert rows[i] in all && rows[j] in all;
    }
    if Get(table, sid).Some? {
      var r := Get(table, sid).value;
      GetIsLatest(table, sid);
      assert r in all;
      if |rows| < LIMIT {
        AllOfThem(all, rows, r);
      }
    }
  }

  /** As many different elements of a list as it has are all of them. */
  lemma {:induction false} AllOfThem(all: seq<Row>, rows: seq<Row>, r: Row)
    requires |rows| == |all| && r in all
    requires forall i :: 0 <= i < |rows| ==> rows[i] in all
    requires forall i, j :: 0 <= i < j < |rows| ==> rows[i] != rows[j]
    ensures r in rows
  {
    if r !in rows {
      var s, a := (set x | x in rows), (set x | x in all);
      SetOfDistinct(rows);
      SetAtMost(all);
      assert s <= a - {r};
      Smaller(s, a - {r});
    }
  }

  lemma Smaller<T>(a: set<T>, b: set<T>)
    requires a <= b
    ensures |a| <= |b|
  {
    assert b == a + (b - a);
  }

  lemma {:induction false} SetOfDistinct<T>(xs: seq<T>)
    requires forall i, j :: 0 <= i < j < |xs| ==> xs[i] != xs[j]
    ensures |set x | x in xs| == |xs|
  {
    if |xs| == 0 {
    } else {
      var n := |xs| - 1;
      SetOfDistinct(xs[..n]);
      assert xs == xs[..n] + [xs[n]];
      assert (set x | x in xs) == (set x | x in xs[..n]) + {xs[n]};
    }
  }

  lemma {:induction false} SetAtMost<T>(xs: seq<T>)
    ensures |set x | x in xs| <= |xs|
  {
    if |xs| == 0 {
    } else {
      var n := |xs| - 1;
      SetAtMost(xs[..n]);
      assert xs == xs[..n] + [xs[n]];
      assert (set x | x in xs) == (set x | x in xs[..n]) + {xs[n]};
    }
  }

  /** The scenarios whose latest row has the given status. */
  ghost function ScenariosWith(table: seq<Row>, status: string): set<string> {
    set r | r in table && Get(table, r.sid).Some? && Get(table, r.sid).value.payload.status == Some(status) :: r.sid
  }

  function WithStatus(rows: seq<Row>, status: string): set<string> {
    set r | r in rows && r.payload.status == Some(status) :: r.sid
  }

  lemma WithStatusGrows(rows: seq<Row>, r: Row, status: string)
    ensures WithStatus(rows + [r], status) ==
            WithStatus(rows, status) + (if r.payload.status == Some(status) then {r.sid} else {})
  {
    assert forall q :: q in rows + [r] <==> q in rows || q == r;
    forall sid | sid in WithStatus(rows, status)
      ensures sid in WithStatus(rows + [r], status)
    {
      var q :| q in rows && q.payload.status == Some(status) && q.sid == sid;
      assert q in rows + [r];
    }
  }

  lemma {:induction false} CountIsSet(rows: seq<Row>, status: string)
    requires forall i, j :: 0 <= i < j < |rows| ==> rows[i].sid != rows[j].sid
    ensures Count(rows, HasStatus(status)) == |WithStatus(rows, status)|
  {
    if |rows| == 0 {
    } else {
      var n := |rows| - 1;
      CountIsSet(rows[..n], status);
      assert rows == rows[..n] + [rows[n]];
      WithStatusGrows(rows[..n], rows[n], status);
      assert rows[n].sid !in WithStatus(rows[..n], status);
    }
  }

  /** The status page counts scenarios by their latest row. */
  lemma CountsAgree(table: seq<Row>, status: string)
    requires UniqueIds(table)
    ensures StatusCount(table, status) == |ScenariosWith(table, status)|
  {
    DistinctLatestMeans(table);
    var all := DistinctLatest(table);
    CountIsSet(all, status);
    var counted := WithStatus(all, status);
    forall sid
      ensures sid in counted <==> sid in ScenariosWith(table, status)
    {
      GetIsLatest(table, sid);
      if sid in counted {
        var r :| r in all && r.payload.status == Some(status) && r.sid == sid;
        assert r in table;
      }
      if sid in ScenariosWith(table, status) {
        var q :| q in table && q.sid == sid;
        var r := Get(table, sid).value;
        assert r.sid == sid && r in all;
      }
    }
    assert counted == ScenariosWith(table, status);
  }

  /** The last row of a scenario in the order the rows were appended. */
  function LastAppended(table: seq<Row>, sid: string): Option<Row> {
    if |table| == 0 then None
    else if table[|table| - 1].sid == sid then Some(table[|table| - 1])
    else LastAppended(table[..|table| - 1], sid)
  }

  /** As long as timestamps and ids grow with every append, the query returns the
      row appended last: this is where log order and query order meet. */
  lemma {:induction false} AppendOrderIsQueryOrder(table: seq<Row>, sid: string)
    requires UniqueIds(table) && forall i, j :: 0 <= i < j < |table| ==> Newer(table[j], table[i])
    ensures Get(table, sid) == LastAppended(table, sid)
  {
    GetIsLatest(table, sid);
    LastMeans(table, sid);
    match LastAppended(table, sid) {
      case None =>
      case Some(r) =>
        assert IsLatest(table, sid, r);
        LatestIsUnique(table, sid, r, Get(table, sid).value);
    }
  }

  lemma {:induction false} LastMeans(table: seq<Row>, sid: string)
    requires forall i, j :: 0 <= i < j < |table| ==> Newer(table[j], table[i])
    ensures match LastAppended(table, sid)
            case None => forall r :: r in table ==> r.sid != sid
            case Some(r) =>
              r in table && r.sid == sid && forall q :: q in table && q.sid == sid ==> (q == r || Newer(r, q))
  {
    if |table| == 0 {
    } else {
      var n := |table| - 1;
      LastMeans(table[..n], sid);
      assert table == table[..n] + [table[n]];
    }
  }
}
