/** Keyset pagination: pages of (created_at, id) < cursor in descending order, while the table
    changes between the pages; and offset pagination with a one-row lookahead. */
module Paging {
  import opened Model

  /** The ordering key of a row; the id breaks ties of created_at. */
  datatype Place = Place(created: int, id: nat)

  predicate Less(a: Place, b: Place) {
    a.created < b.created || (a.created == b.created && a.id < b.id)
  }

  predicate Before(p: Place, cursor: Option<Place>) {
    cursor.None? || Less(p, cursor.value)
  }

  /** ORDER BY created_at DESC, id DESC. */
  predicate Descending(rows: seq<Place>) {
    forall i, j :: 0 <= i < j < |rows| ==> Less(rows[j], rows[i])
  }

  function Below(table: set<Place>, cursor: Option<Place>): set<Place> {
    set p | p in table && Before(p, cursor)
  }

  predicate IsMax(s: set<Place>, m: Place) {
    m in s && forall p :: p in s ==> p == m || Less(p, m)
  }

  lemma MaxExists(s: set<Place>)
    requires s != {}
    ensures exists m :: IsMax(s, m)
    decreases |s|
  {
    var x :| x in s;
    var rest := s - {x};
    if rest == {} {
      assert s == {x};
      assert IsMax(s, x);
    } else {
      MaxExists(rest);
      var y :| IsMax(rest, y);
      assert forall p :: p in s ==> p == x || p in rest;
      assert IsMax(s, if Less(y, x) then x else y);
    }
  }

  ghost function Max(s: set<Place>): (m: Place)
    requires s != {}
    ensures IsMax(s, m)
  {
    MaxExists(s);
    var m :| IsMax(s, m);
    m
  }

  /** The query: the `limit` greatest rows before the cursor, greatest first. */
  ghost function Query(table: set<Place>, cursor: Option<Place>, limit: nat): seq<Place>
    decreases limit
  {
    if limit == 0 || Below(table, cursor) == {} then []
    else
      var m := Max(Below(table, cursor));
      [m] + Query(table, Some(m), limit - 1)
  }

  /** The answer begins with the greatest row before the cursor and goes on from there. */
  lemma QueryCons(table: set<Place>, cursor: Option<Place>, limit: nat) returns (m: Place, rest: seq<Place>)
    requires limit > 0 && Below(table, cursor) != {}
    ensures IsMax(Below(table, cursor), m) && rest == Query(table, Some(m), limit - 1)
    ensures Query(table, cursor, limit) == [m] + rest
  {
    m := Max(Below(table, cursor));
    rest := Query(table, Some(m), limit - 1);
  }

  lemma {:induction false} QueryDescends(table: set<Place>, cursor: Option<Place>, limit: nat)
    ensures |Query(table, cursor, limit)| <= limit && Descending(Query(table, cursor, limit))
    ensures forall p :: p in Query(table, cursor, limit) ==> p in table && Before(p, cursor)
    decreases limit
  {
    if limit > 0 && Below(table, cursor) != {} {
      var m, rest := QueryCons(table, cursor, limit);
      QueryDescends(table, Some(m), limit - 1);
      assert m in Below(table, cursor);
      Append([m], rest);
    }
  }

  /** A row before the cursor is in the answer, or the page is full and the row comes later. */
  lemma {:induction false} QueryMisses(table: set<Place>, cursor: Option<Place>, limit: nat, p: Place)
    requires p in table && Before(p, cursor)
    ensures
      var rows := Query(table, cursor, limit);
      p in rows || (|rows| == limit && (limit > 0 ==> Less(p, rows[limit - 1])))
    decreases limit
  {
    assert p in Below(table, cursor);
    if limit > 0 {
      var m, rest := QueryCons(table, cursor, limit);
      if p != m {
        QueryMisses(table, Some(m), limit - 1, p);
      }
    }
  }

  lemma QueryIsPage(table: set<Place>, cursor: Option<Place>, limit: nat)
    ensures
      var rows := Query(table, cursor, limit);
      && |rows| <= limit && Descending(rows)
      && (forall i :: 0 <= i < |rows| ==> rows[i] in table && Before(rows[i], cursor))
      && (forall p :: p in table && Before(p, cursor) ==> p in rows || (|rows| == limit && (limit > 0 ==> Less(p, rows[limit - 1]))))
  {
    QueryDescends(table, cursor, limit);
    forall p | p in table && Before(p, cursor)
      ensures
        var rows := Query(table, cursor, limit);
        p in rows || (|rows| == limit && (limit > 0 ==> Less(p, rows[limit - 1])))
    {
      QueryMisses(table, cursor, limit, p);
    }
  }

  /** A full page carries a cursor, its last row; a short page is the last. */
  function NextCursor(rows: seq<Place>, limit: nat): Option<Place> {
    if |rows| == limit && limit > 0 then Some(rows[|rows| - 1]) else None
  }

  /** HomeFeed and GetUserVideos: `rows` is the database's answer. */
  method ListPage(rows: seq<Place>, ghost table: set<Place>, cursor: Option<Place>, limit: nat)
    returns (items: seq<Place>, next: Option<Place>)
    requires limit > 0 && rows == Query(table, cursor, limit)
    ensures items == Query(table, cursor, limit) && next == NextCursor(items, limit)
    ensures |items| <= limit && Descending(items) && forall i :: 0 <= i < |items| ==> items[i] in table && Before(items[i], cursor)
    ensures next == if |items| == limit then Some(items[limit - 1]) else None
    ensures next.None? ==> forall p :: p in table && Before(p, cursor) ==> p in items
    ensures next.Some? ==> forall p :: p in table && Before(p, cursor) ==> p in items || Less(p, next.value)
  {
    QueryIsPage(table, cursor, limit);
    items := [];
    for i := 0 to |rows|
      invariant items == rows[..i]
    {
      items := items + [rows[i]];
    }
    next := None;
    if |rows| == limit {
      next := Some(rows[|rows| - 1]);
    }
  }

  // ----- the walk over changing tables -----

  /** The pages a client gets that follows next_cursor; request `i` sees `tables[i]`. */
  ghost function Walk(tables: seq<set<Place>>, cursor: Option<Place>, limit: nat): seq<Place> {
    if tables == [] then []
    else
      var rows := Query(tables[0], cursor, limit);
      var next := NextCursor(rows, limit);
      rows + (if next.None? then [] else Walk(tables[1..], next, limit))
  }

  /** The client has come to the page without a cursor. */
  ghost predicate Finished(tables: seq<set<Place>>, cursor: Option<Place>, limit: nat)
    decreases |tables|
  {
    tables != [] &&
      var next := NextCursor(Query(tables[0], cursor, limit), limit);
      next.None? || Finished(tables[1..], next, limit)
  }

  /** How many requests the walk made. */
  ghost function Requests(tables: seq<set<Place>>, cursor: Option<Place>, limit: nat): nat
    ensures Requests(tables, cursor, limit) <= |tables|
  {
    if tables == [] then 0
    else
      var next := NextCursor(Query(tables[0], cursor, limit), limit);
      1 + (if next.None? then 0 else Requests(tables[1..], next, limit))
  }

  /** Strictly descending throughout: no row is ever shown twice, whatever is inserted or deleted. */
  lemma {:induction false} WalkDescends(tables: seq<set<Place>>, cursor: Option<Place>, limit: nat)
    requires limit > 0
    ensures Descending(Walk(tables, cursor, limit))
    ensures forall i :: 0 <= i < |Walk(tables, cursor, limit)| ==> Before(Walk(tables, cursor, limit)[i], cursor)
  {
    if tables != [] {
      QueryIsPage(tables[0], cursor, limit);
      var rows := Query(tables[0], cursor, limit);
      var next := NextCursor(rows, limit);
      if next.Some? {
        WalkDescends(tables[1..], next, limit);
        Append(rows, Walk(tables[1..], next, limit));
      } else {
        assert rows + [] == rows;
      }
    }
  }

  lemma Append(a: seq<Place>, b: seq<Place>)
    requires a != [] && Descending(a) && Descending(b)
    requires forall i :: 0 <= i < |b| ==> Less(b[i], a[|a| - 1])
    ensures Descending(a + b)
  {
    forall i, j | 0 <= i < j < |a + b| ensures Less((a + b)[j], (a + b)[i]) {
      if i < |a| <= j && i < |a| - 1 {
        assert Less(a[|a| - 1], a[i]);
      }
    }
  }

  /** A row that every consulted table has is shown, once the walk is finished. */
  lemma {:induction false} EligibleIsShown(tables: seq<set<Place>>, cursor: Option<Place>, limit: nat, p: Place)
    requires limit > 0 && Finished(tables, cursor, limit) && Before(p, cursor)
    requires forall i :: 0 <= i < Requests(tables, cursor, limit) ==> p in tables[i]
    ensures p in Walk(tables, cursor, limit)
  {
    QueryIsPage(tables[0], cursor, limit);
    var rows := Query(tables[0], cursor, limit);
    var next := NextCursor(rows, limit);
    assert p in tables[0];
    if next.Some? && p !in rows {
      forall i | 0 <= i < Requests(tables[1..], next, limit) ensures p in tables[1..][i] {
        assert p in tables[i + 1];
      }
      EligibleIsShown(tables[1..], next, limit, p);
    }
  }

  /** Shown rows were eligible when they were shown. */
  lemma {:induction false} ShownIsEligible(tables: seq<set<Place>>, cursor: Option<Place>, limit: nat, p: Place)
    requires limit > 0 && p in Walk(tables, cursor, limit)
    ensures exists i :: 0 <= i < Requests(tables, cursor, limit) && p in tables[i]
  {
    QueryIsPage(tables[0], cursor, limit);
    var rows := Query(tables[0], cursor, limit);
    var next := NextCursor(rows, limit);
    if p in rows {
      assert p in tables[0];
    } else {
      ShownIsEligible(tables[1..], next, limit, p);
      var i :| 0 <= i < Requests(tables[1..], next, limit) && p in tables[1..][i];
      assert p in tables[i + 1];
    }
  }

  /** The theorem for changing tables: a finished walk from the first page shows every row that
      stayed eligible exactly once, in strictly descending order. */
  lemma EveryEligibleRowOnce(tables: seq<set<Place>>, limit: nat, p: Place) returns (at: nat)
    requires limit > 0 && Finished(tables, None, limit)
    requires forall i :: 0 <= i < Requests(tables, None, limit) ==> p in tables[i]
    ensures Descending(Walk(tables, None, limit))
    ensures at < |Walk(tables, None, limit)| && Walk(tables, None, limit)[at] == p
    ensures forall i :: 0 <= i < |Walk(tables, None, limit)| && Walk(tables, None, limit)[i] == p ==> i == at
  {
    EligibleIsShown(tables, None, limit, p);
    WalkDescends(tables, None, limit);
    at :| 0 <= at < |Walk(tables, None, limit)| && Walk(tables, None, limit)[at] == p;
  }

  // ----- a fixed table -----

  /** The whole table, sorted. */
  ghost function Sorted(table: set<Place>, cursor: Option<Place>): seq<Place> {
    Query(table, cursor, |Below(table, cursor)|)
  }

  function Same(table: set<Place>, n: nat): seq<set<Place>> {
    seq(n, _ => table)
  }

  lemma BelowShrinks(table: set<Place>, cursor: Option<Place>)
    requires Below(table, cursor) != {}
    ensures Below(table, Some(Max(Below(table, cursor)))) == Below(table, cursor) - {Max(Below(table, cursor))}
  {
  }

  lemma {:induction false} SortedIsAll(table: set<Place>, cursor: Option<Place>)
    ensures forall p :: p in Sorted(table, cursor) <==> p in Below(table, cursor)
    ensures Descending(Sorted(table, cursor)) && |Sorted(table, cursor)| == |Below(table, cursor)|
    decreases |Below(table, cursor)|
  {
    QueryIsPage(table, cursor, |Below(table, cursor)|);
    if Below(table, cursor) != {} {
      var m := Max(Below(table, cursor));
      BelowShrinks(table, cursor);
      SortedIsAll(table, Some(m));
      assert Sorted(table, cursor) == [m] + Sorted(table, Some(m));
    }
  }

  function FirstOf(rows: seq<Place>, limit: nat): seq<Place> {
    if |rows| <= limit then rows else rows[..limit]
  }

  lemma FirstOfCons(m: Place, rest: seq<Place>, limit: nat)
    requires limit > 0
    ensures FirstOf([m] + rest, limit) == [m] + FirstOf(rest, limit - 1)
    ensures limit <= |rest| + 1 ==>
      && ([m] + rest)[limit..] == rest[limit - 1..]
      && ([m] + rest)[limit - 1] == if limit == 1 then m else rest[limit - 2]
  {
  }

  lemma SortedCons(table: set<Place>, cursor: Option<Place>)
    requires Below(table, cursor) != {}
    ensures
      var m := Max(Below(table, cursor));
      Sorted(table, cursor) == [m] + Sorted(table, Some(m))
  {
    BelowShrinks(table, cursor);
  }

  /** A page is the first `limit` rows of what is left, ... */
  lemma {:induction false} QueryIsPrefix(table: set<Place>, cursor: Option<Place>, limit: nat)
    ensures Query(table, cursor, limit) == FirstOf(Sorted(table, cursor), limit)
    decreases limit
  {
    if limit > 0 && Below(table, cursor) != {} {
      var m := Max(Below(table, cursor));
      QueryIsPrefix(table, Some(m), limit - 1);
      SortedCons(table, cursor);
      FirstOfCons(m, Sorted(table, Some(m)), limit);
    }
  }

  /** ... and the rest follows its last row. */
  lemma {:induction false} RestFollows(table: set<Place>, cursor: Option<Place>, limit: nat)
    requires 0 < limit <= |Sorted(table, cursor)|
    ensures Sorted(table, Some(Sorted(table, cursor)[limit - 1])) == Sorted(table, cursor)[limit..]
    decreases limit
  {
    SortedIsAll(table, cursor);
    var m := Max(Below(table, cursor));
    SortedCons(table, cursor);
    FirstOfCons(m, Sorted(table, Some(m)), limit);
    if limit > 1 {
      RestFollows(table, Some(m), limit - 1);
    }
  }

  /** A page that takes all there is. */
  lemma ShortPage(table: set<Place>, cursor: Option<Place>, limit: nat)
    requires |Below(table, cursor)| < limit
    ensures Query(table, cursor, limit) == Sorted(table, cursor)
    ensures NextCursor(Query(table, cursor, limit), limit) == None
  {
    QueryIsPrefix(table, cursor, limit);
    SortedIsAll(table, cursor);
  }

  /** A full page and what is left after it. */
  lemma FullPage(table: set<Place>, cursor: Option<Place>, limit: nat) returns (last: Place)
    requires 0 < limit <= |Below(table, cursor)|
    ensures NextCursor(Query(table, cursor, limit), limit) == Some(last)
    ensures Query(table, cursor, limit) + Sorted(table, Some(last)) == Sorted(table, cursor)
    ensures |Below(table, Some(last))| == |Below(table, cursor)| - limit
  {
    SortedIsAll(table, cursor);
    var all := Sorted(table, cursor);
    last := all[limit - 1];
    QueryIsPrefix(table, cursor, limit);
    RestFollows(table, cursor, limit);
    SortedIsAll(table, Some(last));
    assert all == all[..limit] + all[limit..];
  }

  /** On a fixed table the walk finishes within rows / limit + 1 requests and its pages put
      together are the whole sorted list. */
  lemma {:induction false} FixedTableWalk(table: set<Place>, cursor: Option<Place>, limit: nat, n: nat)
    requires limit > 0 && n >= |Below(table, cursor)| / limit + 1
    ensures Finished(Same(table, n), cursor, limit)
    ensures Walk(Same(table, n), cursor, limit) == Sorted(table, cursor)
    ensures Requests(Same(table, n), cursor, limit) == |Below(table, cursor)| / limit + 1
    decreases |Below(table, cursor)|
  {
    var tables := Same(table, n);
    assert tables[0] == table && tables[1..] == Same(table, n - 1);
    if |Below(table, cursor)| < limit {
      ShortPage(table, cursor, limit);
      SmallQuotient(|Below(table, cursor)|, limit);
      assert Query(table, cursor, limit) + [] == Sorted(table, cursor);
    } else {
      var last := FullPage(table, cursor, limit);
      Quotient(|Below(table, cursor)|, limit);
      FixedTableWalk(table, Some(last), limit, n - 1);
    }
  }

  lemma SmallQuotient(a: nat, b: nat)
    requires a < b
    ensures a / b == 0
  {
  }

  lemma MoreIsMore(p: int, q: int, b: nat)
    ensures p < q ==> p * b + b <= q * b
  {
    if p < q {
      assert (p + 1) * b == p * b + b;
    }
  }

  lemma DivUnique(a: nat, b: nat, q: nat, r: nat)
    requires b > 0 && a == q * b + r && r < b
    ensures a / b == q
  {
    MoreIsMore(a / b, q, b);
    MoreIsMore(q, a / b, b);
  }

  lemma Quotient(a: nat, b: nat)
    requires 0 < b <= a
    ensures (a - b) / b + 1 == a / b
  {
    var q, r := a / b, a % b;
    MoreIsMore(q, 1, b);
    assert a - b == (q - 1) * b + r;
    DivUnique(a - b, b, q - 1, r);
  }

  // ----- offset pagination -----

  const MAX_OFFSET: nat := 100_000

  /** Search asks for one row more than it shows; only then is there a next cursor. */
  function SearchPage<T>(results: seq<T>, offset: nat, limit: nat): (seq<T>, Option<nat>) {
    var from := if offset <= |results| then offset else |results|;
    var to := if from + limit + 1 <= |results| then from + limit + 1 else |results|;
    var rows := results[from..to];
    if |rows| > limit then (rows[..limit], Some(offset + limit)) else (rows, None)
  }

  predicate Accepted(offset: nat) {
    offset <= MAX_OFFSET
  }

  /** Following the cursors; a rejected one ends the walk. */
  function SearchWalk<T>(results: seq<T>, offset: nat, limit: nat): (seq<T>, bool)
    requires limit > 0
    decreases if offset < |results| then |results| - offset else 0
  {
    if !Accepted(offset) then ([], false)
    else
      var (rows, next) := SearchPage(results, offset, limit);
      if next.None? then (rows, true)
      else
        var (rest, ok) := SearchWalk(results, next.value, limit);
        (rows + rest, ok)
  }

  /** The cursor is omitted exactly on the last page. */
  lemma CursorIffMore<T>(results: seq<T>, offset: nat, limit: nat)
    requires limit > 0
    ensures SearchPage(results, offset, limit).1.Some? <==> offset + limit < |results|
    ensures SearchPage(results, offset, limit).1.Some? ==> SearchPage(results, offset, limit).1 == Some(offset + limit)
    ensures offset <= |results| ==>
      SearchPage(results, offset, limit).0 == results[offset..if offset + limit <= |results| then offset + limit else |results|]
  {
  }

  /** One list of the search handler: the query asks for limit + 1 rows, the extra one is dropped. */
  method SearchList<T>(results: seq<T>, offset: nat, limit: nat) returns (shown: seq<T>, next: Option<nat>)
    requires limit > 0
    ensures (shown, next) == SearchPage(results, offset, limit)
    ensures next.Some? <==> offset + limit < |results|
  {
    var from := if offset <= |results| then offset else |results|;
    var to := if from + limit + 1 <= |results| then from + limit + 1 else |results|;
    var rows := results[from..to];
    var hasNext := |rows| > limit;
    if hasNext {
      rows := rows[..limit];
    }
    shown := [];
    for i := 0 to |rows|
      invariant shown == rows[..i]
    {
      shown := shown + [rows[i]];
    }
    next := if hasNext then Some(offset + limit) else None;
    assert shown == rows;
  }

  /** The walk shows everything from `offset` on if and only if none of the offsets it is led to
      is beyond the parser's bound. */
  lemma {:induction false} SearchWalkComplete<T>(results: seq<T>, offset: nat, limit: nat)
    requires limit > 0 && offset <= |results| && offset <= MAX_OFFSET
    ensures
      var (rows, ok) := SearchWalk(results, offset, limit);
      && (ok <==> |results| <= offset + ((MAX_OFFSET - offset) / limit + 1) * limit)
      && (ok ==> rows == results[offset..])
    decreases |results| - offset
  {
    CursorIffMore(results, offset, limit);
    Steps(offset, limit);
    if offset + limit < |results| && Accepted(offset + limit) {
      SearchWalkComplete(results, offset + limit, limit);
      assert results[offset..] == results[offset..offset + limit] + results[offset + limit..];
    }
  }

  lemma Steps(offset: nat, limit: nat)
    requires limit > 0 && offset <= MAX_OFFSET
    ensures
      var steps := (MAX_OFFSET - offset) / limit;
      if offset + limit > MAX_OFFSET then steps == 0
      else offset + (steps + 1) * limit == (offset + limit) + ((MAX_OFFSET - (offset + limit)) / limit + 1) * limit
  {
    if offset + limit <= MAX_OFFSET {
      Quotient(MAX_OFFSET - offset, limit);
      assert MAX_OFFSET - (offset + limit) == MAX_OFFSET - offset - limit;
    }
  }

  /** In particular no search over at most 100000 results is ever led to a rejected cursor. */
  lemma SmallSearchesFinish<T>(results: seq<T>, limit: nat)
    requires limit > 0 && |results| <= MAX_OFFSET
    ensures SearchWalk(results, 0, limit) == (results, true)
  {
    SearchWalkComplete(results, 0, limit);
    Remainder(MAX_OFFSET, limit);
    assert results[0..] == results;
  }

  lemma Remainder(a: nat, b: nat)
    requires b > 0
    ensures a < (a / b + 1) * b
  {
  }
}
