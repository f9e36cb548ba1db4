/**
 * The audit log: filtered keyset pages, newest first, and the export that walks them.
 *
 * Timestamps are numbers in the order of their ISO strings.  Rows stand newest first; rows with the
 * same timestamp keep one order.
 */
module Audit {
  import opened Wrappers

  datatype Entry = Entry(id: nat, actor: string, action: string, target: Option<string>, detail: Option<string>,
                         createdAt: int)

  datatype Filter = Filter(actor: Option<string>, action: Option<string>, from: Option<int>, to: Option<int>)

  datatype Page = Page(entries: seq<Entry>, next: Option<int>)

  const PAGE_LIMIT := 500
  const MAX_PAGES := 200

  predicate Matches(f: Filter, e: Entry) {
    && (f.actor.Some? ==> e.actor == f.actor.value)
    && (f.action.Some? ==> e.action == f.action.value)
    && (f.from.Some? ==> e.createdAt >= f.from.value)
    && (f.to.Some? ==> e.createdAt <= f.to.value)
  }

  predicate Before(cursor: Option<int>, e: Entry) {
    cursor.Some? ==> e.createdAt < cursor.value
  }

  function Select(rows: seq<Entry>, f: Filter, cursor: Option<int>): seq<Entry> {
    if rows == [] then []
    else if Matches(f, rows[0]) && Before(cursor, rows[0]) then [rows[0]] + Select(rows[1..], f, cursor)
    else Select(rows[1..], f, cursor)
  }

  function Take(rows: seq<Entry>, n: nat): seq<Entry> {
    if |rows| <= n then rows else rows[..n]
  }

  function PageSize(limit: Option<int>): nat {
    var n := if limit.Some? then limit.value else 100;
    if n < 1 then 1 else if n > 500 then 500 else n
  }

  /** One row more than the page holds is fetched, to see whether there is a next page. */
  function Query(rows: seq<Entry>, f: Filter, cursor: Option<int>, limit: Option<int>): Page {
    var n := PageSize(limit);
    var results := Take(Select(rows, f, cursor), n + 1);
    var page := Take(results, n);
    Page(page, if |results| > n then Some(page[|page| - 1].createdAt) else None)
  }

  /** Newest first. */
  predicate Sorted(rows: seq<Entry>) {
    forall i, j | 0 <= i < j < |rows| :: rows[i].createdAt >= rows[j].createdAt
  }

  /** The table with one more row, at its place in the order. */
  function Placed(e: Entry, rows: seq<Entry>): seq<Entry> {
    if rows == [] || rows[0].createdAt <= e.createdAt then [e] + rows else [rows[0]] + Placed(e, rows[1..])
  }

  lemma {:induction false} PlacedAt(e: Entry, rows: seq<Entry>) returns (j: nat)
    ensures j <= |rows| && Placed(e, rows) == rows[..j] + [e] + rows[j..]
    ensures forall i | 0 <= i < j :: rows[i].createdAt > e.createdAt
    ensures j < |rows| ==> rows[j].createdAt <= e.createdAt
  {
    j := 0;
    if rows != [] && rows[0].createdAt > e.createdAt {
      var rest := rows[1..];
      var k := PlacedAt(e, rest);
      j := k + 1;
      assert rows[..j] == [rows[0]] + rest[..k] && rows[j..] == rest[k..];
      assert [rows[0]] + (rest[..k] + [e] + rest[k..]) == [rows[0]] + rest[..k] + [e] + rest[k..];
      assert forall i | 1 <= i < j :: rows[i] == rest[i - 1];
    }
  }

  lemma {:induction false} PlacedAdds(e: Entry, rows: seq<Entry>)
    ensures multiset(Placed(e, rows)) == multiset(rows) + multiset{e}
  {
    if rows != [] && rows[0].createdAt > e.createdAt {
      PlacedAdds(e, rows[1..]);
      assert rows == [rows[0]] + rows[1..];
    }
  }

  lemma PlacedSorted(e: Entry, rows: seq<Entry>)
    requires Sorted(rows)
    ensures Sorted(Placed(e, rows))
  {
    var j := PlacedAt(e, rows);
    InsertSorted(e, rows, j);
  }

  lemma InsertSorted(e: Entry, rows: seq<Entry>, j: nat)
    requires Sorted(rows) && j <= |rows|
    requires forall i | 0 <= i < j :: rows[i].createdAt > e.createdAt
    requires j < |rows| ==> rows[j].createdAt <= e.createdAt
    ensures Sorted(rows[..j] + [e] + rows[j..])
  {
    var p := rows[..j] + [e] + rows[j..];
    assert forall i | j < i < |p| :: p[i] == rows[i - 1] && rows[i - 1].createdAt <= e.createdAt;
  }

  class AuditLog {
    var rows: seq<Entry>

    constructor ()
      ensures rows == []
    {
      rows := [];
    }

    /** The INSERT: an entry stamped before the newest row is taken as well. */
    method Insert(e: Entry)
      requires Sorted(rows)
      modifies this
      ensures rows == Placed(e, old(rows)) && Sorted(rows)
      ensures multiset(rows) == multiset(old(rows)) + multiset{e}
    {
      PlacedSorted(e, rows);
      PlacedAdds(e, rows);
      rows := Placed(e, rows);
    }

    method QueryPage(f: Filter, cursor: Option<int>, limit: Option<int>) returns (page: Page)
      ensures page == Query(rows, f, cursor, limit)
    {
      var n := if limit.Some? then limit.value else 100;
      if n < 1 { n := 1; }
      if n > 500 { n := 500; }
      var results := Take(Select(rows, f, cursor), n + 1);
      var hasMore := |results| > n;
      var entries := Take(results, n);
      page := Page(entries, if hasMore then Some(entries[|entries| - 1].createdAt) else None);
    }
  }

  // ----- the export loop -----

  /** The table as the k-th page finds it: rows may have been added in between, none of them older. */
  ghost predicate Growing(tables: nat -> seq<Entry>) {
    forall k: nat :: Sorted(tables(k)) && EndsWith(tables(k), tables(0))
  }

  predicate EndsWith(rows: seq<Entry>, base: seq<Entry>) {
    |base| <= |rows| && rows[|rows| - |base|..] == base
  }

  /** The rows exported from page `k` on. */
  function ExportFrom(tables: nat -> seq<Entry>, f: Filter, k: nat, cursor: Option<int>): seq<Entry>
    decreases MAX_PAGES - k
  {
    if k >= MAX_PAGES then []
    else
      var page := Query(tables(k), f, cursor, Some(PAGE_LIMIT));
      page.entries + (if page.next.None? then [] else ExportFrom(tables, f, k + 1, page.next))
  }

  lemma OnePage(tables: nat -> seq<Entry>, f: Filter, k: nat, cursor: Option<int>, all: seq<Entry>)
    requires k < MAX_PAGES
    ensures
      var page := Query(tables(k), f, cursor, Some(PAGE_LIMIT));
      all + ExportFrom(tables, f, k, cursor) ==
        if page.next.None? then all + page.entries
        else (all + page.entries) + ExportFrom(tables, f, k + 1, page.next)
  {
    var page := Query(tables(k), f, cursor, Some(PAGE_LIMIT));
    var later := if page.next.None? then [] else ExportFrom(tables, f, k + 1, page.next);
    assert ExportFrom(tables, f, k, cursor) == page.entries + later;
    assert page.entries + [] == page.entries;
    assert all + (page.entries + later) == (all + page.entries) + later;
  }

  method Export(tables: nat -> seq<Entry>, f: Filter) returns (all: seq<Entry>)
    ensures all == ExportFrom(tables, f, 0, None)
  {
    all := [];
    var cursor: Option<int> := None;
    for k := 0 to MAX_PAGES
      invariant all + ExportFrom(tables, f, k, cursor) == ExportFrom(tables, f, 0, None)
    {
      var page := Query(tables(k), f, cursor, Some(PAGE_LIMIT));
      OnePage(tables, f, k, cursor, all);
      all := all + page.entries;
      if page.next.None? { return; }
      cursor := page.next;
    }
  }

  // ----- the pages of a list -----

  function OlderThan(rows: seq<Entry>, c: int): seq<Entry> {
    if rows == [] then []
    else if rows[0].createdAt < c then [rows[0]] + OlderThan(rows[1..], c)
    else OlderThan(rows[1..], c)
  }

  /** At most n pages of a newest-first list, each continuing strictly below the last timestamp. */
  function Pages(rows: seq<Entry>, n: nat): seq<Entry>
    decreases n
  {
    if n == 0 then []
    else if |rows| <= PAGE_LIMIT then rows
    else rows[..PAGE_LIMIT] + Pages(OlderThan(rows, rows[PAGE_LIMIT - 1].createdAt), n - 1)
  }

  /** Rows that are not older than the cursor do not show up below it. */
  lemma {:induction false} AddedInvisible(added: seq<Entry>, base: seq<Entry>, f: Filter, c: int)
    requires forall i | 0 <= i < |added| :: added[i].createdAt >= c
    ensures Select(added + base, f, Some(c)) == Select(base, f, Some(c))
  {
    if added == [] {
      assert added + base == base;
    } else {
      AddedInvisible(added[1..], base, f, c);
      assert (added + base)[1..] == added[1..] + base;
    }
  }

  /** What was added to a newest-first table is not older than any row it had. */
  lemma NotOlder(rows: seq<Entry>, n: nat, e: Entry)
    requires Sorted(rows) && n <= |rows| && e in rows[n..]
    ensures forall i | 0 <= i < n :: rows[i].createdAt >= e.createdAt
  {
    var j :| 0 <= j < |rows| - n && rows[n..][j] == e;
    assert rows[n + j] == e;
  }

  lemma GrownTable(rows: seq<Entry>, base: seq<Entry>, f: Filter, e: Entry)
    requires Sorted(rows) && EndsWith(rows, base) && e in base
    ensures Select(rows, f, Some(e.createdAt)) == Select(base, f, Some(e.createdAt))
  {
    var n := |rows| - |base|;
    NotOlder(rows, n, e);
    AddedInvisible(rows[..n], base, f, e.createdAt);
    assert rows[..n] + base == rows;
  }

  /** A page of 500 in terms of the selection. */
  lemma FullPage(rows: seq<Entry>, f: Filter, cursor: Option<int>)
    ensures
      var all := Select(rows, f, cursor);
      Query(rows, f, cursor, Some(PAGE_LIMIT)) ==
        if |all| <= PAGE_LIMIT then Page(all, None)
        else Page(all[..PAGE_LIMIT], Some(all[PAGE_LIMIT - 1].createdAt))
  {
    var all := Select(rows, f, cursor);
    if |all| > PAGE_LIMIT {
      assert Take(all, PAGE_LIMIT + 1)[..PAGE_LIMIT] == all[..PAGE_LIMIT];
    }
  }

  lemma {:induction false} SelectWithin(rows: seq<Entry>, f: Filter, cursor: Option<int>)
    ensures forall e :: e in Select(rows, f, cursor) <==> e in rows && Matches(f, e) && Before(cursor, e)
  {
    if rows != [] {
      SelectWithin(rows[1..], f, cursor);
      assert rows == [rows[0]] + rows[1..];
    }
  }

  /** By the actor, of the action, within the two times, ends included, and older than the cursor, as far as given. */
  predicate Wanted(f: Filter, cursor: Option<int>, e: Entry) {
    && (f.actor == None || f.actor == Some(e.actor)) && (f.action == None || f.action == Some(e.action))
    && (f.from == None || f.from.value <= e.createdAt) && (f.to == None || e.createdAt <= f.to.value)
    && (cursor == None || e.createdAt < cursor.value)
  }

  lemma WantedIs(f: Filter, cursor: Option<int>, e: Entry)
    ensures Wanted(f, cursor, e) <==> Matches(f, e) && Before(cursor, e)
  {
  }

  lemma OneMore(head: Entry, rest: seq<Entry>, e: Entry)
    ensures multiset([head] + rest)[e] == multiset(rest)[e] + if head == e then 1 else 0
  {
  }

  /** The selection holds each wanted row as often as the table does, and no other row. */
  lemma {:induction false} SelectExact(rows: seq<Entry>, f: Filter, cursor: Option<int>, e: Entry)
    ensures multiset(Select(rows, f, cursor))[e] == if Wanted(f, cursor, e) then multiset(rows)[e] else 0
  {
    if rows != [] {
      SelectExact(rows[1..], f, cursor, e);
      WantedIs(f, cursor, rows[0]);
      OneMore(rows[0], rows[1..], e);
      OneMore(rows[0], Select(rows[1..], f, cursor), e);
      assert rows == [rows[0]] + rows[1..];
    }
  }

  /** How many rows a page may hold: 100 if nothing is asked for, and otherwise from 1 to 500. */
  function Asked(limit: Option<int>): nat {
    match limit
    case None => 100
    case Some(n) => if n <= 1 then 1 else if n >= 500 then 500 else n
  }

  /** A page is the beginning of the selection; its cursor is the stamp of its last row, exactly if more rows follow. */
  lemma PageIs(rows: seq<Entry>, f: Filter, cursor: Option<int>, limit: Option<int>)
    ensures
      var all := Select(rows, f, cursor);
      var page := Query(rows, f, cursor, limit);
      && page.entries <= all
      && |page.entries| == (if |all| <= Asked(limit) then |all| else Asked(limit))
      && (page.next.Some? <==> |all| > |page.entries|)
      && (page.next.Some? ==> page.next.value == page.entries[|page.entries| - 1].createdAt)
  {
  }

  /** And it keeps their order. */
  lemma {:induction false} SelectInOrder(rows: seq<Entry>, f: Filter, cursor: Option<int>) returns (at: seq<nat>)
    ensures Subsequence(Select(rows, f, cursor), rows, at)
  {
    if rows == [] {
      at := [];
    } else {
      var inner := SelectInOrder(rows[1..], f, cursor);
      assert rows == [rows[0]] + rows[1..];
      if Matches(f, rows[0]) && Before(cursor, rows[0]) {
        at := PrefixSubsequence([rows[0]], Select(rows[1..], f, cursor), rows[1..], inner);
      } else {
        at := SkipSubsequence([rows[0]], Select(rows[1..], f, cursor), rows[1..], inner);
      }
    }
  }

  /** The next page sees, of the table it finds, the rows of the first table below the cursor. */
  lemma NextPage(tables: nat -> seq<Entry>, f: Filter, k: nat, cursor: Option<int>)
    requires Growing(tables) && |Select(tables(0), f, cursor)| > PAGE_LIMIT
    ensures
      var rows := Select(tables(0), f, cursor);
      var c := rows[PAGE_LIMIT - 1].createdAt;
      && Select(tables(k + 1), f, Some(c)) == Select(tables(0), f, Some(c))
      && Select(tables(0), f, Some(c)) == OlderThan(rows, c)
  {
    var rows := Select(tables(0), f, cursor);
    var e := rows[PAGE_LIMIT - 1];
    SelectWithin(tables(0), f, cursor);
    assert e in rows;
    GrownTable(tables(k + 1), tables(0), f, e);
    NextSelection(tables(0), f, cursor, e.createdAt);
  }

  /** One turn of the loop. */
  lemma ExportStep(tables: nat -> seq<Entry>, f: Filter, k: nat, cursor: Option<int>)
    requires k < MAX_PAGES
    ensures
      var rows := Select(tables(k), f, cursor);
      ExportFrom(tables, f, k, cursor) ==
        if |rows| <= PAGE_LIMIT then rows
        else rows[..PAGE_LIMIT] + ExportFrom(tables, f, k + 1, Some(rows[PAGE_LIMIT - 1].createdAt))
  {
    FullPage(tables(k), f, cursor);
  }

  lemma TurnIsPage(tables: nat -> seq<Entry>, f: Filter, k: nat, cursor: Option<int>, rows: seq<Entry>)
    requires k < MAX_PAGES && rows == Select(tables(k), f, cursor)
    requires
      |rows| > PAGE_LIMIT ==>
      var c := rows[PAGE_LIMIT - 1].createdAt;
      ExportFrom(tables, f, k + 1, Some(c)) == Pages(OlderThan(rows, c), MAX_PAGES - (k + 1))
    ensures ExportFrom(tables, f, k, cursor) == Pages(rows, MAX_PAGES - k)
  {
    ExportStep(tables, f, k, cursor);
  }

  /** The walk over a growing table is the walk over the rows it had when the export began. */
  lemma {:induction false} ExportIsPages(tables: nat -> seq<Entry>, f: Filter, k: nat, cursor: Option<int>)
    requires Growing(tables) && k <= MAX_PAGES && (cursor.None? ==> k == 0 && tables(0) == tables(k))
    requires Select(tables(k), f, cursor) == Select(tables(0), f, cursor)
    ensures ExportFrom(tables, f, k, cursor) == Pages(Select(tables(0), f, cursor), MAX_PAGES - k)
    decreases MAX_PAGES - k
  {
    if k < MAX_PAGES {
      var rows := Select(tables(0), f, cursor);
      if |rows| > PAGE_LIMIT {
        NextPage(tables, f, k, cursor);
        ExportIsPages(tables, f, k + 1, Some(rows[PAGE_LIMIT - 1].createdAt));
      }
      TurnIsPage(tables, f, k, cursor, rows);
    }
  }

  /** Selecting below a lower cursor narrows an earlier selection. */
  lemma {:induction false} NextSelection(rows: seq<Entry>, f: Filter, cursor: Option<int>, c: int)
    requires cursor.Some? ==> c < cursor.value
    ensures Select(rows, f, Some(c)) == OlderThan(Select(rows, f, cursor), c)
  {
    if rows != [] {
      NextSelection(rows[1..], f, cursor, c);
      if Matches(f, rows[0]) && Before(cursor, rows[0]) {
        var all := Select(rows, f, cursor);
        assert all[0] == rows[0] && all[1..] == Select(rows[1..], f, cursor);
      }
    }
  }

  // ----- when nothing is lost -----

  /** The last row of the k-th page and the first row after it do not share their timestamp. */
  predicate NoTieAt(rows: seq<Entry>, k: nat) {
    0 < 500 * k < |rows| ==> rows[500 * k - 1].createdAt != rows[500 * k].createdAt
  }

  lemma {:induction false} OlderThanSplit(rows: seq<Entry>, k: nat)
    requires Sorted(rows) && 0 < k <= |rows|
    ensures
      var rest := OlderThan(rows, rows[k - 1].createdAt);
      && |rest| <= |rows| - k
      && (|rest| == |rows| - k <==> rest == rows[k..])
      && (k < |rows| ==> (rest == rows[k..] <==> rows[k - 1].createdAt != rows[k].createdAt))
    decreases |rows|
  {
    var c := rows[k - 1].createdAt;
    DropNewer(rows, k, c);
    assert OlderThan(rows, c) == OlderThan(rows[k..], c);
    if k < |rows| {
      if rows[k].createdAt == c {
        OlderThanShorter(rows[k + 1..], c);
        assert rows[k..][1..] == rows[k + 1..];
      } else {
        forall i | 0 <= i < |rows[k..]| ensures rows[k..][i].createdAt < c {
          assert rows[k..][i] == rows[k + i];
        }
        AllOlder(rows[k..], c);
      }
    }
  }

  lemma {:induction false} DropNewer(rows: seq<Entry>, k: nat, c: int)
    requires k <= |rows| && forall i | 0 <= i < k :: rows[i].createdAt >= c
    ensures OlderThan(rows, c) == OlderThan(rows[k..], c)
    decreases k
  {
    if k > 0 {
      DropNewer(rows[1..], k - 1, c);
      assert rows[1..][k - 1..] == rows[k..];
    }
  }

  lemma {:induction false} OlderThanShorter(rows: seq<Entry>, c: int)
    ensures |OlderThan(rows, c)| <= |rows|
  {
    if rows != [] {
      OlderThanShorter(rows[1..], c);
    }
  }

  lemma {:induction false} AllOlder(rows: seq<Entry>, c: int)
    requires forall i | 0 <= i < |rows| :: rows[i].createdAt < c
    ensures OlderThan(rows, c) == rows
  {
    if rows != [] {
      AllOlder(rows[1..], c);
    }
  }

  lemma {:induction false} OlderThanWithin(rows: seq<Entry>, c: int)
    ensures forall e | e in OlderThan(rows, c) :: e in rows
  {
    if rows != [] {
      OlderThanWithin(rows[1..], c);
    }
  }

  lemma {:induction false} OlderThanSorted(rows: seq<Entry>, c: int)
    requires Sorted(rows)
    ensures Sorted(OlderThan(rows, c))
  {
    if rows != [] {
      OlderThanSorted(rows[1..], c);
      OlderThanWithin(rows[1..], c);
      forall e | e in rows[1..] ensures e.createdAt <= rows[0].createdAt {
      }
      HeadSorted(rows[0], OlderThan(rows[1..], c));
    }
  }

  lemma HeadSorted(e: Entry, rest: seq<Entry>)
    requires Sorted(rest) && forall r | r in rest :: r.createdAt <= e.createdAt
    ensures Sorted([e] + rest)
  {
  }

  /** The pages are never more than the list, and shorter once a tie straddles the first boundary. */
  lemma {:induction false} PagesShorter(rows: seq<Entry>, n: nat)
    requires Sorted(rows)
    ensures |Pages(rows, n)| <= |rows|
    decreases n
  {
    if n > 0 && |rows| > PAGE_LIMIT {
      var c := rows[PAGE_LIMIT - 1].createdAt;
      OlderThanSplit(rows, PAGE_LIMIT);
      OlderThanSorted(rows, c);
      PagesShorter(OlderThan(rows, c), n - 1);
    }
  }

  /** None of the first n - 1 page boundaries falls between two rows with the same timestamp. */
  predicate Untied(rows: seq<Entry>, n: nat) {
    forall k: nat | k < n :: NoTieAt(rows, k)
  }

  /** n pages give the whole list exactly if it is short enough and no page boundary cuts through a tie. */
  lemma {:induction false} PagesExact(rows: seq<Entry>, n: nat)
    requires Sorted(rows)
    ensures Pages(rows, n) == rows <==> |rows| <= PAGE_LIMIT * n && Untied(rows, n)
    decreases n
  {
    if |rows| <= PAGE_LIMIT {
      OnePageUntied(rows, n);
    } else if n > 0 {
      var rest := OlderThan(rows, rows[PAGE_LIMIT - 1].createdAt);
      FirstPage(rows, n);
      if NoTieAt(rows, 1) {
        PagesExact(rest, n - 1);
        ShiftTies(rows, n);
      } else if n > 1 {
        assert !Untied(rows, n);
      }
    }
  }

  lemma OnePageUntied(rows: seq<Entry>, n: nat)
    requires |rows| <= PAGE_LIMIT
    ensures Untied(rows, n)
  {
    forall k: nat | k < n ensures NoTieAt(rows, k) {
      assert k >= 1 ==> PAGE_LIMIT * k >= PAGE_LIMIT;
    }
  }

  /** The first page fits, and the rest is complete exactly if its pages are and no tie is cut. */
  lemma FirstPage(rows: seq<Entry>, n: nat)
    requires Sorted(rows) && n > 0 && |rows| > PAGE_LIMIT
    ensures
      var rest := OlderThan(rows, rows[PAGE_LIMIT - 1].createdAt);
      && Sorted(rest)
      && (NoTieAt(rows, 1) <==> rest == rows[PAGE_LIMIT..])
      && (Pages(rows, n) == rows <==> rest == rows[PAGE_LIMIT..] && Pages(rest, n - 1) == rest)
  {
    var rest := OlderThan(rows, rows[PAGE_LIMIT - 1].createdAt);
    var more := Pages(rest, n - 1);
    OlderThanSplit(rows, PAGE_LIMIT);
    OlderThanSorted(rows, rows[PAGE_LIMIT - 1].createdAt);
    PagesShorter(rest, n - 1);
    assert Pages(rows, n) == rows[..PAGE_LIMIT] + more;
    assert rows == rows[..PAGE_LIMIT] + rows[PAGE_LIMIT..];
    assert Pages(rows, n)[PAGE_LIMIT..] == more;
  }

  lemma ShiftTies(rows: seq<Entry>, n: nat)
    requires n > 0 && |rows| > PAGE_LIMIT && NoTieAt(rows, 1)
    ensures Untied(rows[PAGE_LIMIT..], n - 1) <==> Untied(rows, n)
  {
    var rest := rows[PAGE_LIMIT..];
    forall k: nat | 0 < k < n - 1 ensures NoTieAt(rest, k) <==> NoTieAt(rows, k + 1) {
    }
    if Untied(rest, n - 1) {
      forall k: nat | k < n ensures NoTieAt(rows, k) {
        if k > 1 {
          assert NoTieAt(rest, k - 1);
        }
      }
    }
    if Untied(rows, n) {
      forall k: nat | k < n - 1 ensures NoTieAt(rest, k) {
        assert NoTieAt(rows, k + 1);
      }
    }
  }

  /**
   * The export is the whole filtered list, newest first, exactly if there are at most 100000 rows and
   * no page boundary falls between two rows with the same timestamp; rows added meanwhile do not matter.
   */
  lemma ExportComplete(tables: nat -> seq<Entry>, f: Filter)
    requires Growing(tables)
    ensures
      var rows := Select(tables(0), f, None);
      ExportFrom(tables, f, 0, None) == rows <==>
        |rows| <= 100000 && Untied(rows, 200)
  {
    ExportIsPages(tables, f, 0, None);
    SelectSorted(tables(0), f);
    PagesExact(Select(tables(0), f, None), MAX_PAGES);
  }

  lemma {:induction false} SelectSorted(rows: seq<Entry>, f: Filter)
    requires Sorted(rows)
    ensures Sorted(Select(rows, f, None))
  {
    if rows != [] {
      SelectSorted(rows[1..], f);
      SelectWithin(rows[1..], f, None);
      assert forall e | e in Select(rows[1..], f, None) :: e.createdAt <= rows[0].createdAt;
    }
  }

  /** `at` says where the rows of `part` stand in `whole`: in order, none of them twice. */
  predicate Subsequence(part: seq<Entry>, whole: seq<Entry>, at: seq<nat>) {
    && |at| == |part|
    && (forall i | 0 <= i < |at| :: at[i] < |whole| && part[i] == whole[at[i]])
    && (forall i, j | 0 <= i < j < |at| :: at[i] < at[j])
  }

  lemma ComposeSubsequence(a: seq<Entry>, b: seq<Entry>, c: seq<Entry>, inner: seq<nat>, outer: seq<nat>)
    returns (at: seq<nat>)
    requires Subsequence(a, b, inner) && Subsequence(b, c, outer)
    ensures Subsequence(a, c, at)
  {
    at := seq(|inner|, i requires 0 <= i < |inner| => outer[inner[i]]);
  }

  lemma PrefixSubsequence(head: seq<Entry>, part: seq<Entry>, tail: seq<Entry>, inner: seq<nat>) returns (at: seq<nat>)
    requires Subsequence(part, tail, inner)
    ensures Subsequence(head + part, head + tail, at)
  {
    at := seq(|head| + |inner|, i requires 0 <= i < |head| + |inner| =>
              if i < |head| then i else |head| + inner[i - |head|]);
  }

  lemma SkipSubsequence(head: seq<Entry>, part: seq<Entry>, tail: seq<Entry>, inner: seq<nat>) returns (at: seq<nat>)
    requires Subsequence(part, tail, inner)
    ensures Subsequence(part, head + tail, at)
  {
    at := seq(|inner|, i requires 0 <= i < |inner| => |head| + inner[i]);
  }

  /** A full page followed by a subsequence of the strictly older rows. */
  lemma PageSubsequence(rows: seq<Entry>, k: nat, part: seq<Entry>, inner: seq<nat>) returns (at: seq<nat>)
    requires Sorted(rows) && 0 < k <= |rows|
    requires Subsequence(part, OlderThan(rows, rows[k - 1].createdAt), inner)
    ensures Subsequence(rows[..k] + part, rows, at)
  {
    var c := rows[k - 1].createdAt;
    DropNewer(rows, k, c);
    var outer := OlderThanAt(rows[k..], c);
    var both := ComposeSubsequence(part, OlderThan(rows[k..], c), rows[k..], inner, outer);
    at := PrefixSubsequence(rows[..k], part, rows[k..], both);
    assert rows == rows[..k] + rows[k..];
  }

  lemma WholeSubsequence(rows: seq<Entry>) returns (at: seq<nat>)
    ensures Subsequence(rows, rows, at)
  {
    at := seq(|rows|, i => i);
  }

  /** With ties the export is still a subsequence of the list. */
  lemma {:induction false} PagesSubsequence(rows: seq<Entry>, n: nat) returns (at: seq<nat>)
    requires Sorted(rows)
    ensures Subsequence(Pages(rows, n), rows, at)
    decreases n
  {
    if n == 0 {
      at := [];
    } else if |rows| <= PAGE_LIMIT {
      at := WholeSubsequence(rows);
    } else {
      var rest := OlderThan(rows, rows[PAGE_LIMIT - 1].createdAt);
      OlderThanSorted(rows, rows[PAGE_LIMIT - 1].createdAt);
      var inner := PagesSubsequence(rest, n - 1);
      at := PageSubsequence(rows, PAGE_LIMIT, Pages(rest, n - 1), inner);
      assert Pages(rows, n) == rows[..PAGE_LIMIT] + Pages(rest, n - 1);
    }
  }

  /** Whatever the ties, the export is a duplicate-free subsequence of the filtered list. */
  lemma ExportSubsequence(tables: nat -> seq<Entry>, f: Filter) returns (at: seq<nat>)
    requires Growing(tables)
    ensures Subsequence(ExportFrom(tables, f, 0, None), Select(tables(0), f, None), at)
  {
    ExportIsPages(tables, f, 0, None);
    SelectSorted(tables(0), f);
    at := PagesSubsequence(Select(tables(0), f, None), MAX_PAGES);
  }

  lemma {:induction false} OlderThanAt(rows: seq<Entry>, c: int) returns (at: seq<nat>)
    ensures Subsequence(OlderThan(rows, c), rows, at)
  {
    if rows == [] {
      at := [];
    } else {
      var inner := OlderThanAt(rows[1..], c);
      assert rows == [rows[0]] + rows[1..];
      if rows[0].createdAt < c {
        at := PrefixSubsequence([rows[0]], OlderThan(rows[1..], c), rows[1..], inner);
      } else {
        at := SkipSubsequence([rows[0]], OlderThan(rows[1..], c), rows[1..], inner);
      }
    }
  }
}
