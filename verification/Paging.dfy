/** Keyset paging over the approval queue, while the queue changes between one page and the next. */
module Paging {
  import opened Rows

  const MAX_QUEUE_PAGE: int := 100

  /** What a page is asked for: {} for any state, `None` for any tool. */
  datatype Filter = Filter(org: Id, statuses: set<ApprovalStatus>, toolName: Option<string>)

  predicate Matches(f: Filter, a: Approval) {
    && a.org == f.org
    && (f.statuses == {} || a.status in f.statuses)
    && (f.toolName.None? || a.toolName == f.toolName)
  }

  /** Where a row stands in the queue: oldest first, ids breaking ties. */
  datatype Position = Position(requestedAt: Instant, id: Id)

  predicate Before(p: Position, q: Position) {
    p.requestedAt < q.requestedAt || (p.requestedAt == q.requestedAt && p.id < q.id)
  }

  function At(rows: Approvals, id: Id): Position
    requires id in rows
  {
    Position(rows[id].requestedAt, id)
  }

  predicate After(rows: Approvals, id: Id, cursor: Option<Position>)
    requires id in rows
  {
    cursor.None? || Before(cursor.value, At(rows, id))
  }

  function Candidates(rows: Approvals, f: Filter, cursor: Option<Position>): set<Id> {
    set id | id in rows && Matches(f, rows[id]) && After(rows, id, cursor)
  }

  function PageSize(limit: int): (size: nat)
    ensures 1 <= size <= MAX_QUEUE_PAGE
  {
    var capped := if limit < MAX_QUEUE_PAGE then limit else MAX_QUEUE_PAGE;
    if capped > 1 then capped else 1
  }

  predicate IsLeast(rows: Approvals, ids: set<Id>, id: Id)
    requires ids <= rows.Keys
  {
    id in ids && forall other | other in ids && other != id :: Before(At(rows, id), At(rows, other))
  }

  lemma {:induction false} LeastExists(rows: Approvals, ids: set<Id>)
    requires ids != {} && ids <= rows.Keys
    ensures exists id :: IsLeast(rows, ids, id)
  {
    var one :| one in ids;
    var rest := ids - {one};
    assert ids == rest + {one};
    if rest == {} {
      assert IsLeast(rows, ids, one);
    } else {
      LeastExists(rows, rest);
      var least :| IsLeast(rows, rest, least);
      assert IsLeast(rows, ids, if Before(At(rows, one), At(rows, least)) then one else least);
    }
  }

  /** The first row in the order, of some. */
  ghost function Least(rows: Approvals, ids: set<Id>): (id: Id)
    requires ids != {} && ids <= rows.Keys
    ensures id in ids && forall other | other in ids && other != id :: Before(At(rows, id), At(rows, other))
  {
    LeastExists(rows, ids);
    var id :| IsLeast(rows, ids, id);
    id
  }

  /** ORDER BY (requested_at, id) LIMIT n. */
  ghost function InOrder(rows: Approvals, ids: set<Id>, n: nat): (page: seq<Id>)
    requires ids <= rows.Keys
    ensures |page| <= n && forall id | id in page :: id in ids
    decreases n
  {
    if n == 0 || ids == {} then []
    else [Least(rows, ids)] + InOrder(rows, ids - {Least(rows, ids)}, n - 1)
  }

  /** `list_queue` */
  ghost function ListQueue(rows: Approvals, f: Filter, limit: int, cursor: Option<Position>): (page: seq<Id>)
    ensures |page| <= PageSize(limit)
    ensures forall id | id in page :: id in rows && Matches(f, rows[id]) && After(rows, id, cursor)
  {
    InOrder(rows, Candidates(rows, f, cursor), PageSize(limit))
  }

  predicate Ascending(rows: Approvals, page: seq<Id>) {
    && (forall id | id in page :: id in rows)
    && forall i, j | 0 <= i < j < |page| :: Before(At(rows, page[i]), At(rows, page[j]))
  }

  lemma FirstThenRest(rows: Approvals, ids: set<Id>, n: nat)
    requires n != 0 && ids != {} && ids <= rows.Keys
    ensures InOrder(rows, ids, n) == [Least(rows, ids)] + InOrder(rows, ids - {Least(rows, ids)}, n - 1)
  {
  }

  lemma LeastFirst(rows: Approvals, ids: set<Id>, least: Id, rest: seq<Id>)
    requires ids <= rows.Keys && least in ids && Ascending(rows, rest)
    requires forall other | other in ids && other != least :: Before(At(rows, least), At(rows, other))
    requires forall id | id in rest :: id in ids && id != least
    ensures Ascending(rows, [least] + rest)
  {
    var page := [least] + rest;
    forall i, j | 0 <= i < j < |page| ensures Before(At(rows, page[i]), At(rows, page[j])) {
      assert page[j] == rest[j - 1] && page[j] in rest;
      if i > 0 { assert page[i] == rest[i - 1]; }
    }
  }

  lemma {:induction false} InOrderAscends(rows: Approvals, ids: set<Id>, n: nat)
    requires ids <= rows.Keys
    ensures Ascending(rows, InOrder(rows, ids, n))
    decreases n
  {
    if n != 0 && ids != {} {
      hide InOrder, Ascending;
      var least := Least(rows, ids);
      InOrderAscends(rows, ids - {least}, n - 1);
      FirstThenRest(rows, ids, n);
      LeastFirst(rows, ids, least, InOrder(rows, ids - {least}, n - 1));
    } else {
      assert InOrder(rows, ids, n) == [];
    }
  }

  lemma {:induction false} ShortPageHasAll(rows: Approvals, ids: set<Id>, n: nat, id: Id)
    requires ids <= rows.Keys && |InOrder(rows, ids, n)| < n && id in ids
    ensures id in InOrder(rows, ids, n)
    decreases n
  {
    if id != Least(rows, ids) {
      ShortPageHasAll(rows, ids - {Least(rows, ids)}, n - 1, id);
    }
  }

  lemma {:induction false} RestComesAfter(rows: Approvals, ids: set<Id>, n: nat, id: Id, shown: Id)
    requires ids <= rows.Keys && id in ids && id !in InOrder(rows, ids, n) && shown in InOrder(rows, ids, n)
    ensures Before(At(rows, shown), At(rows, id))
    decreases n
  {
    if shown != Least(rows, ids) {
      RestComesAfter(rows, ids - {Least(rows, ids)}, n - 1, id, shown);
    }
  }

  /** A page is in order, and leaves out nothing but what comes after it; a short page leaves out nothing. */
  lemma InOrderIsTheFirst(rows: Approvals, ids: set<Id>, n: nat)
    requires ids <= rows.Keys
    ensures var page := InOrder(rows, ids, n);
            && Ascending(rows, page)
            && (|page| < n ==> forall id | id in ids :: id in page)
            && (forall id, shown | id in ids && id !in page && shown in page :: Before(At(rows, shown), At(rows, id)))
  {
    hide InOrder, Ascending;
    var page := InOrder(rows, ids, n);
    InOrderAscends(rows, ids, n);
    if |page| < n {
      forall id | id in ids ensures id in page { ShortPageHasAll(rows, ids, n, id); }
    }
    forall id, shown | id in ids && id !in page && shown in page ensures Before(At(rows, shown), At(rows, id)) {
      RestComesAfter(rows, ids, n, id, shown);
    }
  }

  /**
   What a caller is given: at most a page, between 1 and 100 rows as asked; rows of its organization,
   in the states and of the tool it asked for, all after the cursor, oldest first and ids breaking
   ties. What it is not given comes later, and there is none if the page is not full.
   */
  lemma APageIsWhatWasAskedFor(rows: Approvals, f: Filter, limit: int, cursor: Option<Position>)
    ensures var page, size := ListQueue(rows, f, limit, cursor), if limit < 1 then 1 else if limit > 100 then 100 else limit;
            && |page| <= size
            && (forall id | id in page ::
                  && id in rows && rows[id].org == f.org
                  && (f.statuses != {} ==> rows[id].status in f.statuses)
                  && (f.toolName.Some? ==> rows[id].toolName == f.toolName)
                  && (cursor.Some? ==> cursor.value.requestedAt < rows[id].requestedAt
                                       || (cursor.value.requestedAt == rows[id].requestedAt && cursor.value.id < id)))
            && (forall i, j | 0 <= i < j < |page| ::
                  || rows[page[i]].requestedAt < rows[page[j]].requestedAt
                  || (rows[page[i]].requestedAt == rows[page[j]].requestedAt && page[i] < page[j]))
            && (forall id |
                  && id in rows && rows[id].org == f.org
                  && (f.statuses != {} ==> rows[id].status in f.statuses)
                  && (f.toolName.Some? ==> rows[id].toolName == f.toolName)
                  && (cursor.Some? ==> cursor.value.requestedAt < rows[id].requestedAt
                                       || (cursor.value.requestedAt == rows[id].requestedAt && cursor.value.id < id))
                  && id !in page ::
                  && |page| == size
                  && forall shown | shown in page ::
                       || rows[shown].requestedAt < rows[id].requestedAt
                       || (rows[shown].requestedAt == rows[id].requestedAt && shown < id))
  {
    hide InOrder;
    var candidates := Candidates(rows, f, cursor);
    InOrderIsTheFirst(rows, candidates, PageSize(limit));
    assert ListQueue(rows, f, limit, cursor) == InOrder(rows, candidates, PageSize(limit));
  }

  // -- A scan -----------------------------------------------------------------------------------------

  /** The queue changes: rows arrive, rows are decided or lapse; no row leaves, and no row moves in the order. */
  predicate Evolves(rows: Approvals, rows': Approvals) {
    forall id | id in rows ::
      && id in rows' && rows'[id].requestedAt == rows[id].requestedAt
      && rows'[id].org == rows[id].org && rows'[id].toolName == rows[id].toolName
  }

  function CursorAfter(rows: Approvals, page: seq<Id>): Option<Position>
    requires forall id | id in page :: id in rows
  {
    if page == [] then None else Some(At(rows, page[|page| - 1]))
  }

  function CursorFor(tables: seq<Approvals>, pages: seq<seq<Id>>, k: nat): Option<Position>
    requires k < |tables| == |pages|
    requires forall i | 0 <= i < |pages| :: forall id | id in pages[i] :: id in tables[i]
  {
    if k == 0 then None else CursorAfter(tables[k - 1], pages[k - 1])
  }

  /** Following cursors: page `k` is read when the table is `tables[k]`, from where page `k - 1` ended. */
  ghost predicate Scan(tables: seq<Approvals>, f: Filter, limit: int, pages: seq<seq<Id>>) {
    && |tables| == |pages|
    && (forall k | 0 <= k < |tables| - 1 :: Evolves(tables[k], tables[k + 1]))
    && (forall k | 0 <= k < |pages| :: forall id | id in pages[k] :: id in tables[k])
    && (forall k | 0 <= k < |pages| :: pages[k] == ListQueue(tables[k], f, limit, CursorFor(tables, pages, k)))
    && (forall k | 0 <= k < |pages| - 1 :: |pages[k]| == PageSize(limit))
  }

  function Flatten(pages: seq<seq<Id>>): seq<Id> {
    if pages == [] then [] else Flatten(pages[..|pages| - 1]) + pages[|pages| - 1]
  }

  /** A row that is there, and matches, at each of the first `k` pages. */
  ghost predicate Throughout(tables: seq<Approvals>, f: Filter, id: Id, k: nat)
    requires k <= |tables|
  {
    forall i | 0 <= i < k :: id in tables[i] && Matches(f, tables[i][id])
  }

  /** Nothing that matched so far was skipped: it was shown, or it stands after everything shown. */
  ghost predicate NothingSkipped(rows: Approvals, shown: seq<Id>, full: bool, id: Id)
    requires id in rows && forall other | other in shown :: other in rows
  {
    id in shown || (full && shown != [] && Before(At(rows, shown[|shown| - 1]), At(rows, id)))
  }

  /** One page, from where the rows shown so far ended. */
  lemma OnePageMore(before: Approvals, rows: Approvals, f: Filter, limit: int, shown: seq<Id>, page: seq<Id>)
    requires Evolves(before, rows) && Ascending(before, shown) && shown != []
    requires page == ListQueue(rows, f, limit, Some(At(before, shown[|shown| - 1])))
    ensures Ascending(rows, shown + page)
    ensures forall id | id in rows && Matches(f, rows[id]) && id in before && NothingSkipped(before, shown, true, id) ::
              NothingSkipped(rows, shown + page, |page| == PageSize(limit), id)
  {
    var cursor := Some(At(before, shown[|shown| - 1]));
    var candidates := Candidates(rows, f, cursor);
    InOrderIsTheFirst(rows, candidates, PageSize(limit));
    PagesAscend(before, rows, shown, page);
    forall id | id in rows && Matches(f, rows[id]) && id in before && NothingSkipped(before, shown, true, id)
      ensures NothingSkipped(rows, shown + page, |page| == PageSize(limit), id)
    {
      if id !in shown && id !in page {
        assert id in candidates;
        assert |page| == PageSize(limit) && page[|page| - 1] in page;
        assert (shown + page)[|shown + page| - 1] == page[|page| - 1];
      }
    }
  }

  lemma PagesAscend(before: Approvals, rows: Approvals, shown: seq<Id>, page: seq<Id>)
    requires Evolves(before, rows) && Ascending(before, shown) && shown != [] && Ascending(rows, page)
    requires forall id | id in page :: Before(At(before, shown[|shown| - 1]), At(rows, id))
    ensures Ascending(rows, shown + page)
  {
    var all := shown + page;
    forall i, j | 0 <= i < j < |all| ensures Before(At(rows, all[i]), At(rows, all[j])) {
      if i < |shown| {
        assert all[i] in shown;
        if j < |shown| { assert all[j] in shown; }
        else { assert all[j] in page; }
      }
    }
  }

  lemma FirstPage(rows: Approvals, f: Filter, limit: int, page: seq<Id>)
    requires page == ListQueue(rows, f, limit, None)
    ensures Ascending(rows, page)
    ensures forall id | id in rows && Matches(f, rows[id]) :: NothingSkipped(rows, page, |page| == PageSize(limit), id)
  {
    InOrderIsTheFirst(rows, Candidates(rows, f, None), PageSize(limit));
    assert page != [] ==> page[|page| - 1] in page;
    assert forall id | id in rows && Matches(f, rows[id]) :: id in Candidates(rows, f, None);
  }

  /** After `k` pages. */
  ghost predicate Shown(tables: seq<Approvals>, f: Filter, limit: int, pages: seq<seq<Id>>, k: nat)
    requires 0 < k <= |tables| == |pages|
  {
    && Ascending(tables[k - 1], Flatten(pages[..k]))
    && (pages[k - 1] != [] ==> Flatten(pages[..k]) != [] && Flatten(pages[..k])[|Flatten(pages[..k])| - 1] == pages[k - 1][|pages[k - 1]| - 1])
    && forall id | Throughout(tables, f, id, k) && id in tables[k - 1] ::
         NothingSkipped(tables[k - 1], Flatten(pages[..k]), |pages[k - 1]| == PageSize(limit), id)
  }

  lemma {:induction false} ScanShows(tables: seq<Approvals>, f: Filter, limit: int, pages: seq<seq<Id>>, k: nat)
    requires Scan(tables, f, limit, pages) && 0 < k <= |pages|
    ensures Shown(tables, f, limit, pages, k)
  {
    assert pages[..k][..k - 1] == pages[..k - 1];
    if k == 1 {
      assert Flatten(pages[..1]) == Flatten([]) + pages[0] == pages[0];
      FirstPage(tables[0], f, limit, pages[0]);
      assert forall id | Throughout(tables, f, id, 1) :: id in tables[0] && Matches(f, tables[0][id]);
    } else {
      ScanShows(tables, f, limit, pages, k - 1);
      assert |pages[k - 2]| == PageSize(limit);
      assert Evolves(tables[k - 2], tables[k - 1]);
      OnePageMore(tables[k - 2], tables[k - 1], f, limit, Flatten(pages[..k - 1]), pages[k - 1]);
      assert Flatten(pages[..k]) == Flatten(pages[..k - 1]) + pages[k - 1];
      forall id | Throughout(tables, f, id, k) && id in tables[k - 1]
        ensures NothingSkipped(tables[k - 1], Flatten(pages[..k]), |pages[k - 1]| == PageSize(limit), id)
      {
        assert Throughout(tables, f, id, k - 1);
        assert id in tables[k - 2] && Matches(f, tables[k - 1][id]);
      }
    }
  }

  predicate OccursOnce(page: seq<Id>, id: Id) {
    exists i :: 0 <= i < |page| && page[i] == id && forall j | 0 <= j < |page| && page[j] == id :: j == i
  }

  lemma AscendingOnce(rows: Approvals, page: seq<Id>, id: Id)
    requires Ascending(rows, page) && id in page
    ensures OccursOnce(page, id)
  {
    var i :| 0 <= i < |page| && page[i] == id;
    forall j | 0 <= j < |page| && page[j] == id ensures j == i {
      assert id in rows && !Before(At(rows, id), At(rows, id));
    }
  }

  /** A short page ends the scan with nothing left out. */
  lemma ScanEnds(tables: seq<Approvals>, f: Filter, limit: int, pages: seq<seq<Id>>, id: Id)
    requires Scan(tables, f, limit, pages) && pages != [] && |pages[|pages| - 1]| < PageSize(limit)
    requires Throughout(tables, f, id, |tables|)
    ensures Ascending(tables[|tables| - 1], Flatten(pages)) && id in Flatten(pages)
  {
    hide Flatten, ListQueue, Ascending, Shown, CursorFor;
    ScanShows(tables, f, limit, pages, |pages|);
    ShownMeans(tables, f, limit, pages, |pages|, id);
    assert pages[..|pages|] == pages;
  }

  lemma ShownMeans(tables: seq<Approvals>, f: Filter, limit: int, pages: seq<seq<Id>>, k: nat, id: Id)
    requires 0 < k <= |tables| == |pages| && Shown(tables, f, limit, pages, k) && Throughout(tables, f, id, k)
    ensures Ascending(tables[k - 1], Flatten(pages[..k]))
    ensures |pages[k - 1]| < PageSize(limit) ==> id in Flatten(pages[..k])
  {
    hide Flatten;
    assert id in tables[k - 1];
  }

  lemma AscendsMeans(rows: Approvals, page: seq<Id>)
    requires Ascending(rows, page)
    ensures forall i, j | 0 <= i < j < |page| ::
              && page[i] in rows && page[j] in rows
              && (|| rows[page[i]].requestedAt < rows[page[j]].requestedAt
                  || (rows[page[i]].requestedAt == rows[page[j]].requestedAt && page[i] < page[j]))
  {
    forall i, j | 0 <= i < j < |page|
      ensures page[i] in rows && page[j] in rows
      ensures || rows[page[i]].requestedAt < rows[page[j]].requestedAt
              || (rows[page[i]].requestedAt == rows[page[j]].requestedAt && page[i] < page[j])
    {
      assert page[i] in page && page[j] in page;
      assert Before(At(rows, page[i]), At(rows, page[j]));
    }
  }

  /**
   Following cursors to a short page shows every approval that was there and was asked for throughout
   exactly once, in (requested_at, id) order, whatever arrives, is decided or lapses in between.
   */
  lemma ScanShowsEachOnce(tables: seq<Approvals>, f: Filter, limit: int, pages: seq<seq<Id>>, id: Id)
    requires Scan(tables, f, limit, pages) && pages != [] && |pages[|pages| - 1]| < PageSize(limit)
    requires forall i | 0 <= i < |tables| ::
               && id in tables[i] && tables[i][id].org == f.org
               && (f.statuses != {} ==> tables[i][id].status in f.statuses)
               && (f.toolName.Some? ==> tables[i][id].toolName == f.toolName)
    ensures OccursOnce(Flatten(pages), id)
    ensures var rows, all := tables[|tables| - 1], Flatten(pages);
            forall i, j | 0 <= i < j < |all| ::
              && all[i] in rows && all[j] in rows
              && (|| rows[all[i]].requestedAt < rows[all[j]].requestedAt
                  || (rows[all[i]].requestedAt == rows[all[j]].requestedAt && all[i] < all[j]))
  {
    assert Throughout(tables, f, id, |tables|);
    hide Flatten, ListQueue, Ascending, Throughout, CursorFor, OccursOnce;
    ScanEnds(tables, f, limit, pages, id);
    AscendingOnce(tables[|tables| - 1], Flatten(pages), id);
    AscendsMeans(tables[|tables| - 1], Flatten(pages));
  }

  /** A page is never empty but at the end, so each one moves the cursor strictly on. */
  lemma CursorAdvances(tables: seq<Approvals>, f: Filter, limit: int, pages: seq<seq<Id>>, k: nat)
    requires Scan(tables, f, limit, pages) && 0 < k < |pages| && pages[k] != []
    ensures pages[k - 1] != []
    ensures Before(CursorAfter(tables[k - 1], pages[k - 1]).value, CursorAfter(tables[k], pages[k]).value)
  {
    assert |pages[k - 1]| == PageSize(limit);
    assert pages[k][|pages[k]| - 1] in pages[k];
  }

  function Waiting(): Approval {
    Approval(1, Some(0), Some(0), None, None, None, 0, None, ApprovalStatus.Pending, None, None, None)
  }

  lemma OnlyOne(rows: Approvals, id: Id, n: nat)
    requires id in rows && n >= 1
    ensures InOrder(rows, {id}, n) == [id]
  {
    assert Least(rows, {id}) == id && {id} - {id} == {};
    assert InOrder(rows, {}, n - 1) == [];
  }

  /** There are such scans: one approval, shown alone on a full page, and then a short one. */
  lemma AScanOfTwoPages()
    ensures exists tables, f, pages, id ::
              Scan(tables, f, 1, pages) && |pages| == 2 && pages[1] == [] && Throughout(tables, f, id, 2)
  {
    var rows, f := map[0 := Waiting()], Filter(1, {}, None);
    var tables, pages := [rows, rows], [[0], []];
    assert Candidates(rows, f, None) == {0};
    OnlyOne(rows, 0, PageSize(1));
    assert Candidates(rows, f, Some(At(rows, 0))) == {};
    assert pages[0] == ListQueue(tables[0], f, 1, CursorFor(tables, pages, 0));
    assert pages[1] == ListQueue(tables[1], f, 1, CursorFor(tables, pages, 1));
    assert Evolves(rows, rows);
    assert Scan(tables, f, 1, pages) && Throughout(tables, f, 0, 2);
  }
}
