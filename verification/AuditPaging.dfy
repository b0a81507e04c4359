/** Reading the audit trail page by page: keyset cursors over (created_at, id), newest first. */
module AuditPaging {
  import opened Basics

  const DEFAULT_LIMIT := 50
  const MAX_LIMIT := 200

  datatype Event = Event(id: nat, at: int, kind: string, actor: string, terminal: string)

  datatype Cursor = Cursor(at: int, id: nat)

  /** Empty strings and missing times do not filter; the range is closed below and open above. */
  datatype Filter = Filter(actor: string, kind: string, terminal: string, from: Option<int>, until: Option<int>)

  /** Ids are unique. */
  ghost predicate Keyed(table: set<Event>) {
    forall a, b :: a in table && b in table && a.id == b.id ==> a == b
  }

  predicate Newer(a: Event, b: Event) { a.at > b.at || (a.at == b.at && a.id > b.id) }

  predicate OlderThan(e: Event, c: Cursor) { e.at < c.at || (e.at == c.at && e.id < c.id) }

  predicate Matches(f: Filter, e: Event) {
    && (f.actor == "" || e.actor == f.actor) && (f.kind == "" || e.kind == f.kind)
    && (f.terminal == "" || e.terminal == f.terminal)
    && (f.from.Some? ==> f.from.value <= e.at) && (f.until.Some? ==> e.at < f.until.value)
  }

  function Matching(table: set<Event>, f: Filter, c: Option<Cursor>): set<Event> {
    set e | e in table && Matches(f, e) && (c.Some? ==> OlderThan(e, c.value))
  }

  // --- Newest first ---

  ghost predicate IsNewest(s: set<Event>, m: Event) {
    m in s && forall e :: e in s && e != m ==> Newer(m, e)
  }

  lemma {:induction false} HasNewest(s: set<Event>) returns (m: Event)
    requires Keyed(s) && s != {}
    ensures IsNewest(s, m)
    decreases |s|
  {
    var x :| x in s;
    m := x;
    var rest := s - {x};
    if rest != {} {
      var n := HasNewest(rest);
      assert n in s && n.id != x.id;
      if Newer(n, x) {
        m := n;
      }
      forall e | e in s && e != m ensures Newer(m, e) {
        assert e == x || e in rest;
      }
    }
  }

  /** The table in the order of the query. */
  ghost function Descending(s: set<Event>): (r: seq<Event>)
    requires Keyed(s)
    decreases |s|
  {
    if s == {} then []
    else
      assert exists m :: IsNewest(s, m) by {
        var m := HasNewest(s);
      }
      var m :| IsNewest(s, m);
      [m] + Descending(s - {m})
  }

  ghost predicate StrictlyNewestFirst(r: seq<Event>) {
    forall i, j :: 0 <= i < j < |r| ==> Newer(r[i], r[j])
  }

  lemma {:induction false} DescendingIs(s: set<Event>)
    requires Keyed(s)
    ensures |Descending(s)| == |s| && StrictlyNewestFirst(Descending(s))
    ensures forall e :: e in Descending(s) <==> e in s
    decreases |s|
  {
    if s != {} {
      var r := Descending(s);
      DescendingIs(s - {r[0]});
      assert r[1..] == Descending(s - {r[0]});
      forall j | 0 < j < |r| ensures Newer(r[0], r[j]) {
        assert r[j] in r[1..];
      }
    }
  }

  lemma DescendingFrom(s: set<Event>, m: Event)
    requires Keyed(s) && IsNewest(s, m)
    ensures Descending(s) == [m] + Descending(s - {m})
  {
    var d := Descending(s);
    assert IsNewest(s, d[0]);
    assert d[0] == m;
  }

  /** There is one such order. */
  lemma {:induction false} OneOrder(s: set<Event>, r: seq<Event>)
    requires Keyed(s) && StrictlyNewestFirst(r) && forall e :: e in r <==> e in s
    ensures r == Descending(s)
    decreases |s|
  {
    assert r == [] || r[0] in r;
    if s != {} {
      var m :| m in s;
      assert m in r;
      var d := Descending(s);
      assert IsNewest(s, d[0]) && r[0] == d[0];
      forall e ensures e in r[1..] <==> e in s - {r[0]} {
        assert r == [r[0]] + r[1..];
      }
      OneOrder(s - {r[0]}, r[1..]);
    }
  }

  lemma MatchingIsKeyed(table: set<Event>, f: Filter, c: Option<Cursor>)
    requires Keyed(table)
    ensures Keyed(Matching(table, f, c))
  {}

  // --- One page ---

  function Clamp(limit: int): (n: nat)
    ensures 1 <= n <= MAX_LIMIT
  {
    if limit <= 0 then DEFAULT_LIMIT else if limit > MAX_LIMIT then MAX_LIMIT else limit
  }

  datatype Page = Page(rows: seq<Event>, hasMore: bool, next: Option<Cursor>)

  ghost function PageOf(all: seq<Event>, n: nat): Page
    requires n >= 1
  {
    if |all| <= n then Page(all, false, None)
    else Page(all[..n], true, Some(Cursor(all[n - 1].at, all[n - 1].id)))
  }

  class Repository {
    var table: set<Event>

    constructor (table: set<Event>)
      ensures this.table == table
    {
      this.table := table;
    }

    /** SELECT … ORDER BY created_at DESC, id DESC LIMIT n. */
    method Query(f: Filter, c: Option<Cursor>, n: nat) returns (rows: seq<Event>)
      requires Keyed(table)
      ensures var all := Descending(Matching(table, f, c)); rows == all[..if n < |all| then n else |all|]
    {
      hide Descending, Matching, IsNewest;
      var rest := Matching(table, f, c);
      MatchingIsKeyed(table, f, c);
      ghost var all := Descending(rest);
      DescendingIs(rest);
      rows := [];
      while |rows| < n && rest != {}
        invariant Keyed(rest) && |rows| <= n && |rows| <= |all|
        invariant rows == all[..|rows|] && Descending(rest) == all[|rows|..]
        decreases rest
      {
        var m := Newest(rest);
        assert m in rest;
        DescendingFrom(rest, m);
        assert all[|rows|] == m && all[|rows|..][1..] == all[|rows| + 1..];
        rows, rest := rows + [m], rest - {m};
      }
      if rest == {} {
        DescendingIs(rest);
      }
    }

    method Newest(s: set<Event>) returns (m: Event)
      requires Keyed(s) && s != {}
      ensures IsNewest(s, m)
    {
      m :| m in s;
      var rest := s - {m};
      while rest != {}
        invariant rest <= s && m in s - rest && forall e :: e in s - rest && e != m ==> Newer(m, e)
        decreases rest
      {
        var e :| e in rest;
        assert e.id != m.id;
        ghost var before, left := m, rest;
        if Newer(e, m) {
          m := e;
        }
        rest := rest - {e};
        forall x | x in s - rest && x != m ensures Newer(m, x) {
          assert x == e || x in s - left;
          assert x == e || x == before || Newer(before, x);
        }
      }
    }
  }

  /** List: one row more than the page shows whether there is another page. */
  method List(events: Repository, f: Filter, c: Option<Cursor>, limit: int) returns (page: Page)
    requires Keyed(events.table)
    ensures page == PageOf(Descending(Matching(events.table, f, c)), Clamp(limit))
  {
    var n := limit;
    if n <= 0 {
      n := DEFAULT_LIMIT;
    }
    if n > MAX_LIMIT {
      n := MAX_LIMIT;
    }
    var rows := events.Query(f, c, n + 1);
    var hasMore := |rows| > n;
    if hasMore {
      rows := rows[..n];
    }
    var next := None;
    if hasMore && |rows| > 0 {
      var last := rows[|rows| - 1];
      next := Some(Cursor(last.at, last.id));
    }
    return Page(rows, hasMore, next);
  }

  // --- All pages ---

  /** An event is behind the cursor of the last row of a page exactly when it is in the rest. */
  lemma BehindCursor(s: set<Event>, all: seq<Event>, n: nat, e: Event)
    requires Keyed(s) && StrictlyNewestFirst(all) && (forall x :: x in all <==> x in s) && 1 <= n <= |all|
    ensures e in all[n..] <==> e in s && OlderThan(e, Cursor(all[n - 1].at, all[n - 1].id))
  {
    var last := all[n - 1];
    if e in all[n..] {
      var j :| 0 <= j < |all[n..]| && all[n..][j] == e;
      assert e == all[n + j] && e in all && Newer(last, all[n + j]);
    }
    if e in s && OlderThan(e, Cursor(last.at, last.id)) {
      assert e in all;
      var j :| 0 <= j < |all| && all[j] == e;
      assert j < n - 1 ==> Newer(all[j], last);
      assert all[n..][j - n] == e;
    }
  }

  /** Behind the cursor of a page lies the rest of the list. */
  lemma RestBehindCursor(table: set<Event>, f: Filter, c: Option<Cursor>, n: nat)
    requires Keyed(table) && 1 <= n < |Descending(Matching(table, f, c))|
    ensures var all := Descending(Matching(table, f, c));
      var next := Some(Cursor(all[n - 1].at, all[n - 1].id));
      && Descending(Matching(table, f, next)) == all[n..]
      && Matching(table, f, next) < Matching(table, f, c)
  {
    var s := Matching(table, f, c);
    var all := Descending(s);
    DescendingIs(s);
    var last := all[n - 1];
    var rest := Matching(table, f, Some(Cursor(last.at, last.id)));
    assert last in s;
    assert forall e :: e in rest <==> e in s && OlderThan(e, Cursor(last.at, last.id));
    hide Descending, Matching, Newer, OlderThan;
    forall e ensures e in all[n..] <==> e in rest {
      BehindCursor(s, all, n, e);
    }
    assert StrictlyNewestFirst(all[n..]);
    OneOrder(rest, all[n..]);
    assert last !in rest by {
      NotBehindItself(last);
    }
  }

  lemma NotBehindItself(e: Event)
    ensures !OlderThan(e, Cursor(e.at, e.id))
  {}

  /** Every row a caller sees who follows the cursors to the end. */
  ghost function AllPages(table: set<Event>, f: Filter, c: Option<Cursor>, limit: int): seq<Event>
    requires Keyed(table)
    decreases Matching(table, f, c)
  {
    var page := PageOf(Descending(Matching(table, f, c)), Clamp(limit));
    if page.next.None? then page.rows
    else
      RestBehindCursor(table, f, c, Clamp(limit));
      page.rows + AllPages(table, f, page.next, limit)
  }

  lemma {:induction false} PagesConcatenate(table: set<Event>, f: Filter, c: Option<Cursor>, limit: int)
    requires Keyed(table)
    ensures AllPages(table, f, c, limit) == Descending(Matching(table, f, c))
    decreases Matching(table, f, c)
  {
    var all := Descending(Matching(table, f, c));
    var page := PageOf(all, Clamp(limit));
    if page.next.Some? {
      RestBehindCursor(table, f, c, Clamp(limit));
      PagesConcatenate(table, f, page.next, limit);
      assert all == all[..Clamp(limit)] + all[Clamp(limit)..];
    }
  }

  /** Following the cursors from the start shows every matching event exactly once, newest first,
      for every page size asked for. */
  lemma PagingIsComplete(table: set<Event>, f: Filter, limit: int)
    requires Keyed(table)
    ensures var rows := AllPages(table, f, None, limit);
      && StrictlyNewestFirst(rows) && |rows| == |Matching(table, f, None)|
      && forall e :: e in rows <==> e in table && Matches(f, e)
  {
    PagesConcatenate(table, f, None, limit);
    DescendingIs(Matching(table, f, None));
  }

  /** The caller's loop, and how many pages it takes: it ends, and only the last page is short. */
  method ReadAll(events: Repository, f: Filter, limit: int) returns (rows: seq<Event>, pages: nat)
    requires Keyed(events.table)
    ensures rows == AllPages(events.table, f, None, limit)
    ensures (pages - 1) * Clamp(limit) <= |rows| <= pages * Clamp(limit)
  {
    hide AllPages, Descending;
    var c: Option<Cursor> := None;
    rows, pages := [], 0;
    ghost var all := Descending(Matching(events.table, f, c));
    PagesConcatenate(events.table, f, None, limit);
    while true
      invariant rows + Descending(Matching(events.table, f, c)) == all
      invariant |rows| == pages * Clamp(limit)
      decreases Matching(events.table, f, c)
    {
      var page := List(events, f, c, limit);
      ghost var rest := Descending(Matching(events.table, f, c));
      rows, pages := rows + page.rows, pages + 1;
      if page.next.None? {
        break;
      }
      RestBehindCursor(events.table, f, c, Clamp(limit));
      assert rest == rest[..Clamp(limit)] + rest[Clamp(limit)..];
      c := page.next;
    }
  }

  /** Events written while someone pages, being newer than the cursor, do not disturb the pages
      still to come. */
  lemma NewEventsDoNotDisturb(table: set<Event>, more: set<Event>, f: Filter, c: Cursor, limit: int)
    requires Keyed(table + more) && forall e :: e in more ==> !OlderThan(e, c)
    ensures Keyed(table) && AllPages(table + more, f, Some(c), limit) == AllPages(table, f, Some(c), limit)
  {
    assert Keyed(table);
    assert Matching(table + more, f, Some(c)) == Matching(table, f, Some(c));
    PagesConcatenate(table + more, f, Some(c), limit);
    PagesConcatenate(table, f, Some(c), limit);
  }
}
