/** A reader who follows the cursors while new transactions are indexed, and what
    a listed row is worth: it can be opened. */
module HistoryPaging {
  import opened Prelude
  import opened History
  import opened HistoryTheorems

  datatype Query = Query(subject: Subject, access: Access, limit: int)

  datatype End = Finished | MoreToCome | Broken(error: HistoryError)

  /** All rows a reader was shown, and how the last page ended. */
  datatype Trail = Trail(rows: seq<Row>, end: End)

  /** Fetch a page; let the calls of the next gap happen; fetch the next page; and so on. */
  ghost function Follow(s: Store, gaps: seq<seq<Call>>, q: Query, cursor: Option<string>): Trail
    decreases |gaps|
  {
    match ListBySubject(s, q.subject, q.access, q.limit, cursor)
    case Err(e) => Trail([], Broken(e))
    case Ok(page) =>
      if page.next.None? then Trail(page.rows, Finished)
      else if gaps == [] then Trail(page.rows, MoreToCome)
      else
        var rest := Follow(Run(s, gaps[0]), gaps[1..], q, page.next);
        Trail(page.rows + rest.rows, rest.end)
  }

  ghost function RunAll(s: Store, gaps: seq<seq<Call>>): Store
    decreases |gaps|
  {
    if gaps == [] then s else RunAll(Run(s, gaps[0]), gaps[1..])
  }

  /** The subject as the queries normalize it. */
  function Normalized(q: Query): Subject { Subject(q.subject.kind, Upper(Strip(q.subject.id))) }

  predicate Permitted(q: Query) {
    Strip(q.subject.id) != "" && 1 <= q.limit <= 100 && !LacksReason(q.access) && CanAccess(Normalized(q), q.access)
  }

  // ---------------------------------------------------------------- one page

  ghost predicate Below(row: Row, k: Option<Key>) { k.Some? ==> KeyLt(KeyOf(row), k.value) }

  function FromKey(k: Option<Key>): Option<string> { if k.Some? then Some(EncodeCursor(k.value)) else None }

  function Older(rows: seq<Row>, k: Option<Key>): seq<Row> { if k.Some? then OlderThan(rows, k.value) else rows }

  lemma {:induction false} OlderAscends(rows: seq<Row>, k: Key)
    requires Ascending(Newer, rows)
    ensures Ascending(Newer, OlderThan(rows, k))
  {
    hide Newer, KeyLt;
    if rows != [] {
      OlderAscends(rows[1..], k);
      var rest := OlderThan(rows[1..], k);
      forall j | 0 <= j < |rest| ensures Newer(rows[0], rest[j]) {
        assert rest[j] in rest;
        var i :| 0 <= i < |rows[1..]| && rows[1..][i] == rest[j];
        assert rows[i + 1] == rest[j];
      }
    }
  }

  /** One page: newest first, all below the cursor, nothing skipped. */
  ghost predicate PageOk(rows: seq<Row>, k: Option<Key>, limit: int, page: Page) {
    && Ascending(Newer, page.rows) && (forall row :: row in page.rows ==> row in rows && Below(row, k))
    && (page.next.None? ==> forall row :: row in rows && Below(row, k) ==> row in page.rows)
    && (page.next.Some? ==>
          && |page.rows| == limit >= 1
          && page.next == Some(EncodeCursor(KeyOf(page.rows[limit - 1])))
          && forall row :: row in rows && Below(row, k) ==> row in page.rows || Newer(page.rows[limit - 1], row))
  }

  lemma CutPageOk(rows: seq<Row>, k: Option<Key>, limit: nat)
    requires Ascending(Newer, rows) && limit >= 1
    ensures PageOk(rows, k, limit, CutPage(Older(rows, k), limit))
  {
    hide Newer, KeyLt, EncodeCursor;
    var kept := Older(rows, k);
    if k.Some? { OlderAscends(rows, k.value); }
    var page := CutPage(kept, limit);
    forall row | row in kept && page.next.Some? ensures row in page.rows || Newer(page.rows[limit - 1], row) {
      var i :| 0 <= i < |kept| && kept[i] == row;
      assert i < limit ==> page.rows[i] == row;
    }
    forall row | row in page.rows ensures row in kept {
      var i :| 0 <= i < |page.rows| && page.rows[i] == row;
      assert kept[i] == row;
    }
  }

  /** A permitted query with a cursor of ours is answered from the listing. */
  lemma PermittedPage(s: Store, q: Query, k: Option<Key>)
    requires Permitted(q) && (k.Some? ==> IsUttId(k.value.uttId))
    ensures ListBySubject(s, q.subject, q.access, q.limit, FromKey(k))
            == Ok(CutPage(Older(Listing(s, Normalized(q)), k), q.limit))
  {
    hide Listing, Strip, Upper, CanAccess, LacksReason, CutPage, OlderThan, EncodeCursor, DecodeCursor;
    if k.Some? { CursorRoundTrip(k.value); }
  }

  /** A next cursor is honoured, by any later store, exactly when the row it was cut
      after carries a transaction identifier. */
  lemma NextCursorIsHonoured(s: Store, later: Store, q: Query, cursor: Option<string>)
    requires var r := ListBySubject(s, q.subject, q.access, q.limit, cursor); r.Ok? && r.value.next.Some?
    ensures var page := ListBySubject(s, q.subject, q.access, q.limit, cursor).value;
            && |page.rows| == q.limit >= 1
            && (ListBySubject(later, q.subject, q.access, q.limit, page.next).Ok?
                <==> IsUttId(page.rows[q.limit - 1].projection.uttId))
  {
    hide Listing, Strip, Upper, CanAccess, LacksReason, OlderThan, EncodeCursor, DecodeCursor;
    var page := ListBySubject(s, q.subject, q.access, q.limit, cursor).value;
    CursorRoundTrip(KeyOf(page.rows[q.limit - 1]));
  }

  // -------------------------------------------------------------- every page

  ghost predicate NamedUtts(s: Store) { forall u :: u in s.projections ==> IsUttId(u) }

  ghost predicate NamedCalls(calls: seq<Call>) { forall i :: 0 <= i < |calls| ==> IsUttId(calls[i].uttId) }

  lemma {:induction false} RunKeepsNames(s: Store, calls: seq<Call>)
    requires NamedUtts(s) && NamedCalls(calls)
    ensures NamedUtts(Run(s, calls))
    decreases |calls|
  {
    hide IsUttId, Indexed;
    if calls != [] {
      IndexedKeepsNames(s, calls[0]);
      RunKeepsNames(Indexed(s, calls[0]), calls[1..]);
    }
  }

  lemma IndexedKeepsNames(s: Store, c: Call)
    requires NamedUtts(s) && IsUttId(c.uttId)
    ensures NamedUtts(Indexed(s, c))
  {
    hide IsUttId, LinksOf, RolesOf, IndexProblem, AddLinks;
  }

  ghost predicate NamedGaps(gaps: seq<seq<Call>>) { forall i :: 0 <= i < |gaps| ==> NamedCalls(gaps[i]) }

  /** What following the cursors from below a key must deliver. */
  ghost predicate TrailOk(s: Store, last: Store, q: Query, k: Option<Key>, pages: nat, t: Trail) {
    && Ascending(Newer, t.rows)
    && (forall row :: row in t.rows ==> row in Listing(last, Normalized(q)) && Below(row, k))
    && !t.end.Broken?
    && (t.end.Finished? ==> forall row :: row in Listing(s, Normalized(q)) && Below(row, k) ==> row in t.rows)
    && (t.end.MoreToCome? ==> |t.rows| == pages * q.limit)
  }

  lemma JoinAscends(a: seq<Row>, b: seq<Row>, k: Key)
    requires Ascending(Newer, a) && Ascending(Newer, b) && a != [] && KeyOf(a[|a| - 1]) == k
    requires forall row :: row in b ==> KeyLt(KeyOf(row), k)
    ensures Ascending(Newer, a + b)
  {
    hide KeyLt;
    NewerIsAnOrder();
    forall i, j | 0 <= i < |a| && 0 <= j < |b| ensures Newer(a[i], b[j]) {
      assert b[j] in b && Newer(a[|a| - 1], b[j]);
      assert i < |a| - 1 ==> Newer(a[i], a[|a| - 1]);
    }
  }

  /** One page before the trail of the pages after it. */
  lemma TrailStep(s: Store, s1: Store, last: Store, q: Query, k: Option<Key>, pages: nat, page: Page, rest: Trail)
    requires PageOk(Listing(s, Normalized(q)), k, q.limit, page) && q.limit >= 1 && page.next.Some?
    requires TrailOk(s1, last, q, Some(KeyOf(page.rows[q.limit - 1])), pages, rest)
    requires forall row :: row in Listing(s, Normalized(q)) ==> row in Listing(s1, Normalized(q))
    requires forall row :: row in Listing(s, Normalized(q)) ==> row in Listing(last, Normalized(q))
    ensures TrailOk(s, last, q, k, pages + 1, Trail(page.rows + rest.rows, rest.end))
  {
    hide Listing, KeyLt, EncodeCursor, Normalized, Ascending;
    var kk := KeyOf(page.rows[q.limit - 1]);
    JoinAscends(page.rows, rest.rows, kk);
    forall row | row in rest.rows ensures Below(row, k) {
      if k.Some? {
        assert page.rows[q.limit - 1] in page.rows;
        KeyLtTransitive(KeyOf(row), kk, k.value);
      }
    }
    assert (pages + 1) * q.limit == pages * q.limit + q.limit;
  }

  lemma {:induction false} FollowFrom(s: Store, gaps: seq<seq<Call>>, q: Query, k: Option<Key>)
    requires HistoryOk(s) && NamedUtts(s) && Permitted(q) && (k.Some? ==> IsUttId(k.value.uttId))
    requires NamedGaps(gaps)
    ensures TrailOk(s, RunAll(s, gaps), q, k, |gaps| + 1, Follow(s, gaps, q, FromKey(k)))
    ensures HistoryOk(RunAll(s, gaps)) && Grows(s, RunAll(s, gaps))
    decreases |gaps|
  {
    hide Listing, HistoryOk, Grows, PageOk, Older, CutPage, Permitted, ListBySubject, NamedCalls, NamedUtts, TrailOk,
         Run, IsUttId, EncodeCursor, Normalized;
    var rows := Listing(s, Normalized(q));
    ListingIsExact(s, Normalized(q));
    PermittedLimit(q);
    CutPageOk(rows, k, q.limit);
    PermittedPage(s, q, k);
    var page := CutPage(Older(rows, k), q.limit);
    var last := RunAll(s, gaps);
    GrowsReflexive(s);
    if gaps == [] {
      OnlyPage(s, q, k, page);
    } else {
      var s1 := Run(s, gaps[0]);
      RunKeepsOk(s, gaps[0]);
      RunKeepsNames(s, gaps[0]);
      FollowTail(s, s1, gaps, q, k, page);
    }
  }

  lemma {:induction false} FollowTail(s: Store, s1: Store, gaps: seq<seq<Call>>, q: Query, k: Option<Key>, page: Page)
    requires HistoryOk(s) && NamedUtts(s) && Permitted(q) && gaps != [] && s1 == Run(s, gaps[0])
    requires HistoryOk(s1) && NamedUtts(s1) && Grows(s, s1)
    requires NamedGaps(gaps)
    requires PageOk(Listing(s, Normalized(q)), k, q.limit, page) && 1 <= q.limit
    requires ListBySubject(s, q.subject, q.access, q.limit, FromKey(k)) == Ok(page)
    ensures TrailOk(s, RunAll(s, gaps), q, k, |gaps| + 1, Follow(s, gaps, q, FromKey(k)))
    ensures HistoryOk(RunAll(s, gaps)) && Grows(s, RunAll(s, gaps))
    decreases |gaps|, 0
  {
    hide Listing, HistoryOk, PageOk, Permitted, ListBySubject, NamedCalls, TrailOk, Run, Grows, IsUttId, EncodeCursor,
         NamedUtts, Normalized;
    var last := RunAll(s, gaps);
    var kk := if page.next.Some? then Some(LastKey(page)) else None;
    assert kk.Some? ==> IsUttId(kk.value.uttId) by {
      if page.next.Some? { LastKeyIsNamed(s, q, k, page); }
    }
    FollowFrom(s1, gaps[1..], q, kk);
    GrowsTransitive(s, s1, last);
    ListingGrows(s, last, Normalized(q));
    ListingGrows(s, s1, Normalized(q));
    if page.next.None? {
      OnlyPageOf(s, last, q, k, page, |gaps| + 1);
    } else {
      NextIsLastKey(s, q, k, page);
      TrailStep(s, s1, last, q, k, |gaps|, page, Follow(s1, gaps[1..], q, page.next));
    }
  }

  function LastKey(page: Page): Key {
    if page.rows == [] then Key(0, "") else KeyOf(page.rows[|page.rows| - 1])
  }

  lemma LastKeyIsNamed(s: Store, q: Query, k: Option<Key>, page: Page)
    requires HistoryOk(s) && NamedUtts(s) && PageOk(Listing(s, Normalized(q)), k, q.limit, page) && q.limit >= 1
    requires page.next.Some?
    ensures IsUttId(LastKey(page).uttId)
  {
    hide Listing, KeyLt, Newer;
    ListingIsExact(s, Normalized(q));
    assert page.rows[q.limit - 1] in page.rows;
    assert ShownRow(s, Normalized(q), page.rows[q.limit - 1]);
  }

  lemma NextIsLastKey(s: Store, q: Query, k: Option<Key>, page: Page)
    requires PageOk(Listing(s, Normalized(q)), k, q.limit, page) && q.limit >= 1 && page.next.Some?
    ensures page.next == Some(EncodeCursor(LastKey(page))) && LastKey(page) == KeyOf(page.rows[q.limit - 1])
  {
    hide Listing, KeyLt, Newer, EncodeCursor;
  }

  lemma OnlyPage(s: Store, q: Query, k: Option<Key>, page: Page)
    requires PageOk(Listing(s, Normalized(q)), k, q.limit, page)
    ensures TrailOk(s, s, q, k, 1, Trail(page.rows, if page.next.None? then Finished else MoreToCome))
  {
    hide Listing, KeyLt, Newer, EncodeCursor;
  }

  lemma OnlyPageOf(s: Store, last: Store, q: Query, k: Option<Key>, page: Page, pages: nat)
    requires PageOk(Listing(s, Normalized(q)), k, q.limit, page) && page.next.None?
    requires forall row :: row in Listing(s, Normalized(q)) ==> row in Listing(last, Normalized(q))
    ensures TrailOk(s, last, q, k, pages, Trail(page.rows, Finished))
  {
    hide Listing, KeyLt, Newer, EncodeCursor;
  }

  lemma PermittedLimit(q: Query)
    requires Permitted(q)
    ensures 1 <= q.limit
  {
  }

  lemma GrowsReflexive(s: Store)
    ensures Grows(s, s)
  {
  }

  lemma GrowsTransitive(a: Store, b: Store, c: Store)
    requires HistoryOk(a) && HistoryOk(b) && Grows(a, b) && Grows(b, c)
    ensures Grows(a, c)
  {
    hide IndexAgrees, LinksOk;
  }

  /** A sequence without repetition that lies inside another is no longer than it. */
  lemma {:induction false} DistinctFits<T>(a: seq<T>, b: seq<T>)
    requires Distinct(a) && forall x :: x in a ==> x in b
    ensures |a| <= |b|
  {
    if a != [] {
      assert a[0] in b;
      var j :| 0 <= j < |b| && b[j] == a[0];
      var b' := b[..j] + b[j + 1..];
      forall x | x in a[1..] ensures x in b' {
        var i :| 1 <= i < |a| && a[i] == x;
        assert x in a;
        var m :| 0 <= m < |b| && b[m] == x;
        assert m != j;
        assert if m < j then b'[m] == x else b'[m - 1] == x;
      }
      DistinctFits(a[1..], b');
    }
  }

  lemma AscendingIsDistinct(rows: seq<Row>)
    requires Ascending(Newer, rows)
    ensures Distinct(rows)
  {
    forall i, j | 0 <= i < j < |rows| ensures rows[i] != rows[j] {
      KeyLtAsymmetric(KeyOf(rows[j]), KeyOf(rows[i]));
    }
  }

  /** Following the cursors from the first page, with any permitted limit and any
      indexing in between: the rows come strictly newest first, so none twice; the
      trail never breaks; once it has finished it holds every row that was there at
      the start; and it has finished as soon as the pages fetched could hold more
      rows than the subject then has. */
  lemma {:induction false} PagingIsComplete(calls: seq<Call>, gaps: seq<seq<Call>>, q: Query)
    requires NamedCalls(calls) && NamedGaps(gaps) && Permitted(q)
    ensures var s := Run(EMPTY_HISTORY, calls);
            var last := RunAll(s, gaps);
            var t := Follow(s, gaps, q, None);
            && Ascending(Newer, t.rows) && Distinct(t.rows) && !t.end.Broken?
            && (forall row :: row in t.rows ==> row in Listing(last, Normalized(q)))
            && (t.end.Finished? ==> forall row :: row in Listing(s, Normalized(q)) ==> row in t.rows)
            && ((|gaps| + 1) * q.limit > |Listing(last, Normalized(q))| ==> t.end.Finished?)
  {
    hide Run, Follow, RunAll, HistoryOk, Grows, NamedCalls, Listing, Permitted, KeyLt;
    EmptyIsOk();
    RunKeepsOk(EMPTY_HISTORY, calls);
    RunKeepsNames(EMPTY_HISTORY, calls);
    var s := Run(EMPTY_HISTORY, calls);
    FollowFrom(s, gaps, q, None);
    var t := Follow(s, gaps, q, None);
    AscendingIsDistinct(t.rows);
    DistinctFits(t.rows, Listing(RunAll(s, gaps), Normalized(q)));
  }
}
