/** The ledger's pages, read by a keyset cursor while the ledger may grow (internal/adapters/postgres/read.go). */
module Pages {
  import opened Prelude
  import opened Ledger

  /** Where a page ended; the text of a cursor is its encoding, modelled as injective. */
  datatype Cursor = Cursor(version: int, walletId: Id, id: Id, at: Time)

  datatype Page = Page(entries: seq<LedgerData>, next: Option<Cursor>)

  /** (created_at, id) of e is before that of f: f is shown first. */
  predicate Earlier(e: LedgerData, f: LedgerData) {
    e.createdAt < f.createdAt || (e.createdAt == f.createdAt && e.id < f.id)
  }

  /** The WHERE clause: everything, or what comes strictly before the cursor. */
  predicate Below(e: LedgerData, cursor: Option<Cursor>) {
    cursor.Some? ==> e.createdAt < cursor.value.at || (e.createdAt == cursor.value.at && e.id < cursor.value.id)
  }

  function Selected(table: set<LedgerData>, cursor: Option<Cursor>): set<LedgerData> {
    set e | e in table && Below(e, cursor)
  }

  function CursorOf(e: LedgerData): Cursor { Cursor(1, e.walletId, e.id, e.createdAt) }

  /** Entry ids are unique, and all entries are of one wallet. */
  ghost predicate LedgerOf(table: set<LedgerData>, wid: Id) {
    && (forall e :: e in table ==> e.walletId == wid && e.id != NO_ID && e.createdAt != NO_TIME)
    && (forall e, f :: e in table && f in table && e.id == f.id ==> e == f)
  }

  ghost predicate Descending(s: seq<LedgerData>) {
    forall i, j :: 0 <= i < j < |s| ==> Earlier(s[j], s[i])
  }

  /** Later instants first, and of one instant the larger ids. */
  predicate NewestFirst(s: seq<LedgerData>) {
    forall i, j :: 0 <= i < j < |s| ==>
      s[j].createdAt < s[i].createdAt || (s[j].createdAt == s[i].createdAt && s[j].id < s[i].id)
  }

  lemma DescendingIsNewestFirst(s: seq<LedgerData>)
    ensures Descending(s) <==> NewestFirst(s)
  {
    forall i, j | 0 <= i < j < |s| && Descending(s) ensures Earlier(s[j], s[i]) {}
    forall i, j | 0 <= i < j < |s| && NewestFirst(s) ensures Earlier(s[j], s[i]) {}
  }

  /** The page shows the first entries below the cursor, and says where to go on exactly if there are more. */
  ghost predicate PageOf(table: set<LedgerData>, cursor: Option<Cursor>, limit: nat, page: Page) {
    var selected := Selected(table, cursor);
    && |page.entries| == Min(limit, |selected|) && Descending(page.entries)
    && (forall e :: e in page.entries ==> e in selected)
    && (forall e, f :: e in selected && e !in page.entries && f in page.entries ==> Earlier(e, f))
    && page.next == if |selected| > limit && limit > 0 then Some(CursorOf(page.entries[limit - 1])) else None
  }

  // ---------- one page ----------

  method Latest(rows: set<LedgerData>) returns (last: LedgerData)
    requires rows != {} && forall e, f :: e in rows && f in rows && e.id == f.id ==> e == f
    ensures last in rows && forall e :: e in rows && e != last ==> Earlier(e, last)
  {
    last :| last in rows;
    var unseen := rows - {last};
    while unseen != {}
      invariant unseen <= rows && last in rows && last !in unseen
      invariant forall e :: e in rows && e !in unseen && e != last ==> Earlier(e, last)
    {
      var e :| e in unseen;
      unseen := unseen - {e};
      if Earlier(last, e) {
        last := e;
      }
    }
  }

  /** ORDER BY created_at DESC, id DESC LIMIT n. */
  method Query(table: set<LedgerData>, cursor: Option<Cursor>, n: nat, ghost wid: Id) returns (rows: seq<LedgerData>)
    requires LedgerOf(table, wid)
    ensures var selected := Selected(table, cursor);
      && |rows| == Min(n, |selected|) && Descending(rows) && (forall e :: e in rows ==> e in selected)
      && (forall e, f :: e in selected && e !in rows && f in rows ==> Earlier(e, f))
  {
    rows := [];
    var rest := Selected(table, cursor);
    while |rows| < n && rest != {}
      invariant rest <= Selected(table, cursor) && |rows| <= n && |rows| + |rest| == |Selected(table, cursor)|
      invariant forall e :: e in Selected(table, cursor) ==> (e in rest <==> e !in rows)
      invariant forall e :: e in rows ==> e in Selected(table, cursor)
      invariant Descending(rows)
      invariant forall e, i :: e in rest && 0 <= i < |rows| ==> Earlier(e, rows[i])
    {
      var e := Latest(rest);
      rest := rest - {e};
      rows := rows + [e];
    }
  }

  predicate Usable(cursor: Option<Cursor>, wid: Id) {
    cursor.Some? ==>
      cursor.value.version == 1 && cursor.value.walletId == wid && cursor.value.id != NO_ID &&
        cursor.value.at != NO_TIME
  }

  /** One row more than the limit tells whether there is a next page. */
  method LedgerPage(table: set<LedgerData>, wid: Id, known: bool, cursor: Option<Cursor>, limit: int)
    returns (r: Result<Page>)
    requires LedgerOf(table, wid)
    ensures r.Ok? <==> 1 <= limit <= 100 && known && Usable(cursor, wid)
    ensures r.Ok? ==> PageOf(table, cursor, limit, r.value) && Usable(r.value.next, wid)
    ensures r.Ok? ==> NewestFirst(r.value.entries)
    ensures r.Ok? && cursor.Some? ==>
      forall e :: e in r.value.entries ==>
        e.createdAt < cursor.value.at || (e.createdAt == cursor.value.at && e.id < cursor.value.id)
    ensures r.Ok? && r.value.next.Some? ==>
      |r.value.entries| == limit && var last := r.value.entries[limit - 1];
      r.value.next == Some(Cursor(1, wid, last.id, last.createdAt))
    ensures r.Fail? ==>
      r.code == if limit < 1 || limit > 100 then INVALID_INPUT else if !known then NOT_FOUND else INVALID_CURSOR
  {
    if limit < 1 || limit > 100 {
      return Fail(INVALID_INPUT);
    }
    if !known {
      return Fail(NOT_FOUND);
    }
    if !Usable(cursor, wid) {
      return Fail(INVALID_CURSOR);
    }
    var rows := Query(table, cursor, limit + 1, wid);
    var page := Page([], None);
    var i := 0;
    while i < |rows| && page.next == None
      invariant 0 <= i <= |rows| && page.entries == rows[..i] && i <= limit
      invariant page.next == None || (i == limit < |rows| && page.next == Some(CursorOf(page.entries[limit - 1])))
      decreases |rows| - i, if page.next == None then 1 else 0
    {
      if |page.entries| == limit {
        page := page.(next := Some(CursorOf(page.entries[limit - 1])));
      } else {
        page := page.(entries := page.entries + [rows[i]]);
        i := i + 1;
      }
    }
    PageOfPrefix(table, cursor, limit, rows, page);
    DescendingIsNewestFirst(page.entries);
    assert page.next.Some? ==> page.entries[limit - 1] in Selected(table, cursor);
    return Ok(page);
  }

  lemma PageOfPrefix(table: set<LedgerData>, cursor: Option<Cursor>, limit: nat, rows: seq<LedgerData>, page: Page)
    requires var selected := Selected(table, cursor);
      && |rows| == Min(limit + 1, |selected|) && Descending(rows) && (forall e :: e in rows ==> e in selected)
      && (forall e, f :: e in selected && e !in rows && f in rows ==> Earlier(e, f))
    requires page.entries == rows[..Min(limit, |rows|)] && limit > 0
    requires page.next == if |rows| > limit then Some(CursorOf(page.entries[limit - 1])) else None
    ensures PageOf(table, cursor, limit, page)
  {
    forall e, f | e in Selected(table, cursor) && e !in page.entries && f in page.entries ensures Earlier(e, f) {
      if e in rows {
        var i :| 0 <= i < |rows| && rows[i] == e;
        InPrefix(rows, |page.entries|, i);
        var j :| 0 <= j < |page.entries| && page.entries[j] == f;
      }
    }
  }

  lemma InPrefix(s: seq<LedgerData>, n: nat, i: nat)
    requires n <= |s| && i < |s|
    ensures i < n ==> s[i] in s[..n]
  {
    if i < n {
      assert s[..n][i] == s[i];
    }
  }

  // ---------- all pages ----------

  /** What follows a page is what was selected and not shown. */
  lemma NextSelects(table: set<LedgerData>, cursor: Option<Cursor>, limit: nat, page: Page)
    requires PageOf(table, cursor, limit, page) && page.next.Some? && limit > 0
    ensures forall e :: e in Selected(table, page.next) <==> e in Selected(table, cursor) && e !in page.entries
    ensures forall e, f :: e in Selected(table, page.next) && f in page.entries ==> Earlier(e, f)
  {
    var last := page.entries[limit - 1];
    assert last in page.entries && last in Selected(table, cursor);
    forall f | f in page.entries ensures f == last || Earlier(last, f) {
      var i :| 0 <= i < |page.entries| && page.entries[i] == f;
      assert i < limit - 1 ==> Earlier(last, f);
    }
    forall e ensures e in Selected(table, page.next) <==> e in Selected(table, cursor) && e !in page.entries {
      assert Below(e, page.next) <==> Earlier(e, last);
    }
  }

  /** What a reader still has to fetch. */
  function Rest(table: set<LedgerData>, next: Option<Cursor>): set<LedgerData> {
    if next == None then {} else Selected(table, next)
  }

  lemma PageSplits(table: set<LedgerData>, cursor: Option<Cursor>, limit: nat, page: Page)
    requires PageOf(table, cursor, limit, page) && limit > 0
    ensures forall e :: e in Selected(table, cursor) <==> e in page.entries || e in Rest(table, page.next)
    ensures forall e, f :: e in Rest(table, page.next) && f in page.entries ==> Earlier(e, f)
    ensures page.next.Some? ==> |Rest(table, page.next)| < |Selected(table, cursor)|
  {
    if page.next.Some? {
      NextSelects(table, cursor, limit, page);
      PagesEnd(table, cursor, limit, page);
    } else {
      AllSelected(table, cursor, limit, page);
    }
  }

  /** A reader follows the cursor from page to page, each read on the ledger as it is by then. */
  ghost predicate Walk(tables: seq<set<LedgerData>>, pages: seq<Page>, cursor: Option<Cursor>, limit: nat) {
    && |tables| == |pages| > 0 && limit > 0
    && PageOf(tables[0], cursor, limit, pages[0])
    && (if pages[0].next == None then |pages| == 1
      else |pages| > 1 && Walk(tables[1..], pages[1..], pages[0].next, limit))
  }

  ghost predicate Growing(tables: seq<set<LedgerData>>) {
    forall i, j :: 0 <= i < j < |tables| ==> tables[i] <= tables[j]
  }

  function Shown(pages: seq<Page>): seq<LedgerData> {
    if pages == [] then [] else pages[0].entries + Shown(pages[1..])
  }

  lemma {:induction false} WalkShows(tables: seq<set<LedgerData>>, pages: seq<Page>, cursor: Option<Cursor>, limit: nat)
    requires Walk(tables, pages, cursor, limit) && Growing(tables)
    ensures forall e :: e in Selected(tables[0], cursor) ==> e in Shown(pages)
    ensures forall e :: e in Shown(pages) ==> e in Selected(tables[|tables| - 1], cursor)
    ensures Descending(Shown(pages))
    decreases |pages|
  {
    var page := pages[0];
    if page.next == None {
      assert pages[1..] == [] && Shown(pages) == page.entries + [];
      AllSelected(tables[0], cursor, limit, page);
    } else {
      assert tables[1..][|tables[1..]| - 1] == tables[|tables| - 1];
      WalkShows(tables[1..], pages[1..], page.next, limit);
      NextSelects(tables[0], cursor, limit, page);
      assert tables[0] <= tables[1];
      var last := page.entries[limit - 1];
      forall e | e in Shown(pages[1..]) ensures Earlier(e, last) && Below(e, cursor) {
        assert e in Selected(tables[|tables| - 1], page.next);
        assert last in Selected(tables[0], cursor);
      }
      Joined(page.entries, Shown(pages[1..]));
      forall e | e in page.entries ensures e in Selected(tables[|tables| - 1], cursor) {
        assert tables[0] <= tables[|tables| - 1];
      }
    }
  }

  /** A page without a next cursor shows everything selected. */
  lemma AllSelected(table: set<LedgerData>, cursor: Option<Cursor>, limit: nat, page: Page)
    requires PageOf(table, cursor, limit, page) && page.next == None && limit > 0
    ensures forall e :: e in Selected(table, cursor) ==> e in page.entries
  {
    var selected := Selected(table, cursor);
    var shown := set e | e in page.entries;
    DistinctCount(page.entries);
    assert |shown| == |selected| && shown <= selected;
    if selected != shown {
      SubsetIsSmaller(shown, selected);
    }
  }

  lemma SubsetIsSmaller(a: set<LedgerData>, b: set<LedgerData>)
    requires a <= b && a != b
    ensures |a| < |b|
  {
    assert b == a + (b - a);
    assert b - a != {};
  }

  lemma {:induction false} DistinctCount(s: seq<LedgerData>)
    requires Descending(s)
    ensures |set e | e in s| == |s|
  {
    if s != [] {
      var front, last := s[..|s| - 1], s[|s| - 1];
      DistinctCount(front);
      assert (set e | e in s) == (set e | e in front) + {last};
      assert last !in front;
    }
  }

  lemma Joined(s: seq<LedgerData>, t: seq<LedgerData>)
    requires Descending(s) && Descending(t) && s != [] && forall e :: e in t ==> Earlier(e, s[|s| - 1])
    ensures Descending(s + t)
  {
    forall i, j | 0 <= i < j < |s + t| ensures Earlier((s + t)[j], (s + t)[i]) {
      if i < |s| <= j {
        assert (s + t)[j] == t[j - |s|] && t[j - |s|] in t;
      }
    }
  }

  /**
   * Following the cursors to the end shows, each exactly once and newest first, every entry that was there when
   * reading began, whatever is appended meanwhile; on a ledger that does not grow, exactly its entries.
   */
  lemma PagesAreComplete(tables: seq<set<LedgerData>>, pages: seq<Page>, limit: nat)
    requires Walk(tables, pages, None, limit) && Growing(tables)
    ensures forall e :: e in tables[0] ==> multiset(Shown(pages))[e] == 1
    ensures forall e :: e in Shown(pages) ==> e in tables[|tables| - 1]
    ensures NewestFirst(Shown(pages))
  {
    WalkShows(tables, pages, None, limit);
    DescendingIsNewestFirst(Shown(pages));
    forall e | e in tables[0] ensures multiset(Shown(pages))[e] == 1 {
      assert e in Selected(tables[0], None);
      ShownOnce(Shown(pages), e);
    }
  }

  lemma {:induction false} ShownOnce(s: seq<LedgerData>, e: LedgerData)
    requires Descending(s)
    ensures multiset(s)[e] == if e in s then 1 else 0
  {
    if s != [] {
      ShownOnce(s[1..], e);
      assert s == [s[0]] + s[1..];
    }
  }

  /** On a fixed ledger each page leaves fewer entries to show, so reading ends. */
  lemma PagesEnd(table: set<LedgerData>, cursor: Option<Cursor>, limit: nat, page: Page)
    requires PageOf(table, cursor, limit, page) && page.next.Some? && limit > 0
    ensures |Selected(table, page.next)| < |Selected(table, cursor)|
  {
    NextSelects(table, cursor, limit, page);
    assert page.entries[0] in page.entries;
    SubsetIsSmaller(Selected(table, page.next), Selected(table, cursor));
  }

  /** A client that reads all pages of a ledger. */
  method ReadAll(table: set<LedgerData>, wid: Id, limit: int) returns (all: seq<LedgerData>)
    requires LedgerOf(table, wid) && 1 <= limit <= 100
    ensures NewestFirst(all) && |all| == |table| && forall e :: e in table <==> e in all
  {
    var r := LedgerPage(table, wid, true, None, limit);
    var page := r.value;
    all := page.entries;
    assert Selected(table, None) == table;
    PageSplits(table, None, limit, page);
    while page.next.Some?
      invariant Usable(page.next, wid) && Descending(all)
      invariant forall e :: e in table <==> e in all || e in Rest(table, page.next)
      invariant forall e, f :: e in Rest(table, page.next) && f in all ==> Earlier(e, f)
      decreases page.next.Some?, |Rest(table, page.next)|
    {
      var cursor := page.next;
      r := LedgerPage(table, wid, true, cursor, limit);
      page := r.value;
      PageSplits(table, cursor, limit, page);
      if all != [] {
        assert all[|all| - 1] in all;
        forall e | e in page.entries ensures Earlier(e, all[|all| - 1]) { assert e in Rest(table, cursor); }
        Joined(all, page.entries);
      }
      all := all + page.entries;
    }
    DistinctCount(all);
    DescendingIsNewestFirst(all);
    assert (set e | e in all) == table;
  }
}
