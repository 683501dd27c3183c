/**
  Keyset pagination: pages are cut by a cursor that names a row, not by an offset. A page is one SQL query with a
  three-valued condition, an order and a limit, and links are computed from the page that came back.
 */
module Pagination {
  import opened Prelude

  /** A row as far as pagination sees it. Keys of tables are positive; the sort value may be null. */
  datatype Row = Row(pk: int, value: Option<int>)

  datatype Mode = ByPk | ByValue

  datatype View = View(mode: Mode, ascending: bool)

  /** Direction true is forward, false backward; without a direction the cursor asks for the first page. */
  datatype Cursor = Cursor(direction: Option<bool>, lastPk: Option<int>, lastValue: Option<int>)

  const START: Cursor := Cursor(None, None, None)

  const END: Cursor := Cursor(Some(false), None, None)

  datatype Page = Page(objects: seq<Row>, hasNext: Option<bool>, hasPrev: Option<bool>, cursor: Cursor)

  // ------------------------------------------------------------------ the order of rows

  function Flip(view: View): View {
    view.(ascending := !view.ascending)
  }

  /** Null is greater than every value. */
  predicate ValueLess(a: Option<int>, b: Option<int>) {
    a.Some? && (b.None? || a.value < b.value)
  }

  predicate KeyLess(mode: Mode, a: Row, b: Row) {
    if mode == ByPk then a.pk < b.pk else ValueLess(a.value, b.value) || (a.value == b.value && a.pk < b.pk)
  }

  predicate Before(view: View, a: Row, b: Row) {
    if view.ascending then KeyLess(view.mode, a, b) else KeyLess(view.mode, b, a)
  }

  predicate DistinctKeys(rows: seq<Row>) {
    forall i, j :: 0 <= i < j < |rows| ==> rows[i].pk != rows[j].pk
  }

  predicate Sorted(view: View, s: seq<Row>) {
    forall i, j :: 0 <= i < j < |s| ==> Before(view, s[i], s[j])
  }

  predicate Table(rows: seq<Row>) {
    DistinctKeys(rows) && forall i :: 0 <= i < |rows| ==> rows[i].pk > 0
  }

  function Insert(view: View, s: seq<Row>, row: Row): seq<Row> {
    if s == [] || Before(view, row, s[0]) then [row] + s else [s[0]] + Insert(view, s[1..], row)
  }

  /** The rows in the order of the view. */
  function Sort(view: View, rows: seq<Row>): seq<Row> {
    if rows == [] then [] else Insert(view, Sort(view, rows[1..]), rows[0])
  }

  lemma {:induction false} InsertAdds(view: View, s: seq<Row>, row: Row)
    ensures multiset(Insert(view, s, row)) == multiset(s) + multiset{row}
  {
    if s != [] {
      assert s == [s[0]] + s[1..];
      InsertAdds(view, s[1..], row);
    }
  }

  lemma {:induction false} InsertSorts(view: View, s: seq<Row>, row: Row)
    requires Sorted(view, s) && forall i :: 0 <= i < |s| ==> s[i].pk != row.pk
    ensures Sorted(view, Insert(view, s, row))
    ensures forall x :: x in Insert(view, s, row) ==> x in s || x == row
  {
    if s != [] && !Before(view, row, s[0]) {
      InsertSorts(view, s[1..], row);
      var rest := Insert(view, s[1..], row);
      forall i | 0 <= i < |rest| ensures Before(view, s[0], rest[i]) {
        assert rest[i] in s[1..] || rest[i] == row;
      }
    }
  }

  lemma {:induction false} SortSorts(view: View, rows: seq<Row>)
    requires DistinctKeys(rows)
    ensures Sorted(view, Sort(view, rows))
    ensures multiset(Sort(view, rows)) == multiset(rows)
  {
    if rows != [] {
      assert rows == [rows[0]] + rows[1..];
      SortSorts(view, rows[1..]);
      var rest := Sort(view, rows[1..]);
      forall i | 0 <= i < |rest| ensures rest[i].pk != rows[0].pk {
        assert rest[i] in multiset(rest);
        assert rest[i] in rows[1..];
      }
      InsertSorts(view, rest, rows[0]);
      InsertAdds(view, rest, rows[0]);
    }
  }

  lemma {:induction false} InsertLength(view: View, s: seq<Row>, row: Row)
    ensures |Insert(view, s, row)| == |s| + 1
  {
    if s != [] && !Before(view, row, s[0]) { InsertLength(view, s[1..], row); }
  }

  lemma {:induction false} SortLength(view: View, rows: seq<Row>)
    ensures |Sort(view, rows)| == |rows|
  {
    if rows != [] {
      SortLength(view, rows[1..]);
      InsertLength(view, Sort(view, rows[1..]), rows[0]);
    }
  }

  lemma {:induction false} SortedIsUnique(view: View, a: seq<Row>, b: seq<Row>)
    requires Sorted(view, a) && Sorted(view, b) && |a| == |b|
    requires forall row :: row in a <==> row in b
    ensures a == b
  {
    if a != [] {
      assert a[0] in b;
      assert b[0] in a;
      var i :| 0 <= i < |b| && b[i] == a[0];
      var j :| 0 <= j < |a| && a[j] == b[0];
      assert a[0] == b[0];
      assert a == [a[0]] + a[1..] && b == [b[0]] + b[1..];
      forall row ensures row in a[1..] <==> row in b[1..] {
        assert row in a <==> row == a[0] || row in a[1..];
        assert row in b <==> row == b[0] || row in b[1..];
        assert row in a[1..] ==> Before(view, a[0], row);
        assert row in b[1..] ==> Before(view, b[0], row);
      }
      SortedIsUnique(view, a[1..], b[1..]);
    }
  }

  lemma ReversedMembers(s: seq<Row>, row: Row)
    ensures row in Reversed(s) <==> row in s
  {
    if row in s {
      var i :| 0 <= i < |s| && s[i] == row;
      assert Reversed(s)[|s| - 1 - i] == row;
    }
  }

  lemma ReversedSorted(view: View, s: seq<Row>)
    requires Sorted(view, s)
    ensures Sorted(Flip(view), Reversed(s))
  {
  }

  /** Reversing both columns of the order reverses the result, nulls included. */
  lemma FlippedSort(view: View, rows: seq<Row>)
    requires DistinctKeys(rows)
    ensures Sort(Flip(view), rows) == Reversed(Sort(view, rows))
  {
    SortSorts(view, rows);
    SortSorts(Flip(view), rows);
    var s := Sort(view, rows);
    var flipped := Sort(Flip(view), rows);
    forall row ensures row in Reversed(s) <==> row in flipped {
      assert row in flipped <==> row in multiset(flipped);
      assert row in s <==> row in multiset(s);
      ReversedMembers(s, row);
    }
    ReversedSorted(view, s);
    SortLength(view, rows);
    SortLength(Flip(view), rows);
    SortedIsUnique(Flip(view), Reversed(s), flipped);
  }

  // ------------------------------------------------------------------ the condition

  /** SQL truth. */
  datatype Tri = True | False | Unknown

  function Truth(b: bool): Tri {
    if b then True else False
  }

  function Or(a: Tri, b: Tri): Tri {
    if a == True || b == True then True else if a == False && b == False then False else Unknown
  }

  function And(a: Tri, b: Tri): Tri {
    if a == False || b == False then False else if a == True && b == True then True else Unknown
  }

  function IsNull(value: Option<int>): Tri {
    Truth(value.None?)
  }

  /** The row comparison (a, p) > (b, q): the first column decides unless it is equal. */
  function PairGreater(a: Option<int>, p: int, b: int, q: int): Tri {
    if a.None? then Unknown else Truth(a.value > b || (a.value == b && p > q))
  }

  function PairLess(a: Option<int>, p: int, b: int, q: int): Tri {
    if a.None? then Unknown else Truth(a.value < b || (a.value == b && p < q))
  }

  /** The condition on pages cut by primary key alone. */
  function PkCondition(view: View, cursor: Cursor, row: Row): Tri
    requires cursor.direction.Some?
  {
    var forward := if view.ascending then cursor.direction.value else !cursor.direction.value;
    if cursor.lastPk.None? then True
    else if forward then Truth(row.pk > cursor.lastPk.value)
    else Truth(row.pk < cursor.lastPk.value)
  }

  /** The condition on pages ordered by a value, by cases on the direction and on the last value being null. */
  function ValueCondition(view: View, cursor: Cursor, row: Row): Tri
    requires cursor.direction.Some?
  {
    var forward := if view.ascending then cursor.direction.value else !cursor.direction.value;
    if cursor.lastPk.None? || cursor.lastPk.value == 0 then True
    else
      var lastPk := cursor.lastPk.value;
      match cursor.lastValue
      case None =>
        if forward then And(IsNull(row.value), Truth(row.pk > lastPk))
        else Or(Truth(row.value.Some?), And(Truth(row.pk < lastPk), IsNull(row.value)))
      case Some(last) =>
        if forward then Or(IsNull(row.value), PairGreater(row.value, row.pk, last, lastPk))
        else PairLess(row.value, row.pk, last, lastPk)
  }

  predicate Selects(view: View, cursor: Cursor, row: Row) {
    cursor.direction.None?
    || (if view.mode == ByPk then PkCondition(view, cursor, row) else ValueCondition(view, cursor, row)) == True
  }

  /** The order in which the query reads rows: backward pages are read in reverse. */
  function Reading(view: View, cursor: Cursor): View {
    if cursor.direction == Some(false) then Flip(view) else view
  }

  /** The cursor stands at this key; the row itself may be gone. */
  predicate StandsAt(view: View, cursor: Cursor, key: Row) {
    && cursor.direction.Some?
    && cursor.lastPk == Some(key.pk)
    && (view.mode == ByValue ==> cursor.lastValue == key.value && key.pk != 0)
  }

  predicate Unfiltered(view: View, cursor: Cursor) {
    cursor.direction.None? || cursor.lastPk.None? || (view.mode == ByValue && cursor.lastPk.value == 0)
  }

  /** The condition holds of exactly the rows strictly past the cursor, in the direction of reading. */
  lemma ConditionSelectsPast(view: View, cursor: Cursor, key: Row, row: Row)
    requires StandsAt(view, cursor, key)
    ensures Selects(view, cursor, row) <==> Before(Reading(view, cursor), key, row)
  {
  }

  lemma UnfilteredSelectsAll(view: View, cursor: Cursor, row: Row)
    requires Unfiltered(view, cursor)
    ensures Selects(view, cursor, row)
  {
  }

  // ------------------------------------------------------------------ pages and links

  function Where(s: seq<Row>, keep: Row -> bool): seq<Row> {
    if s == [] then [] else (if keep(s[0]) then [s[0]] else []) + Where(s[1..], keep)
  }

  function Query(view: View, rows: seq<Row>, cursor: Cursor): seq<Row> {
    Where(Sort(Reading(view, cursor), rows), row => Selects(view, cursor, row))
  }

  function GetPage(view: View, rows: seq<Row>, size: nat, cursor: Cursor): Page {
    if size == 0 then Page([], None, None, cursor)
    else
      var found := Take(Query(view, rows, cursor), size);
      var more := |found| >= size;
      if cursor.direction == Some(false) then Page(Reversed(found), None, Some(more), cursor)
      else Page(found, Some(more), None, cursor)
  }

  function CursorAt(view: View, direction: bool, row: Row): Cursor {
    Cursor(Some(direction), Some(row.pk), if view.mode == ByValue then row.value else None)
  }

  function NextCursor(view: View, page: Page, size: nat): Option<Cursor> {
    var n := |page.objects|;
    if page.hasNext == Some(false) then None
    else if n > 0 && n == size then Some(CursorAt(view, true, page.objects[n - 1]))
    else if page.cursor.direction == Some(false) then Some(START)
    else None
  }

  function PrevCursor(view: View, page: Page, size: nat): Option<Cursor> {
    var n := |page.objects|;
    if page.cursor.direction.None? || page.hasPrev == Some(false) then None
    else if n == 0 then (if page.cursor.direction == Some(true) then Some(END) else None)
    else if n == size || page.cursor.direction == Some(true) then Some(CursorAt(view, false, page.objects[0]))
    else None
  }

  // ------------------------------------------------------------------ a page is a slice

  lemma {:induction false} WhereSuffix(s: seq<Row>, keep: Row -> bool, k: nat)
    requires k <= |s|
    requires forall i :: 0 <= i < |s| ==> (keep(s[i]) <==> k <= i)
    ensures Where(s, keep) == s[k..]
  {
    if s != [] {
      var rest := s[1..];
      if k == 0 {
        WhereSuffix(rest, keep, 0);
      } else {
        assert !keep(s[0]);
        WhereSuffix(rest, keep, k - 1);
      }
    }
  }

  /** Where in the reading order the rows past the cursor begin. */
  ghost predicate BeginsAt(view: View, rows: seq<Row>, cursor: Cursor, k: nat) {
    var s := Sort(Reading(view, cursor), rows);
    k <= |s| && forall i :: 0 <= i < |s| ==> (Selects(view, cursor, s[i]) <==> k <= i)
  }

  lemma QueryFrom(view: View, rows: seq<Row>, cursor: Cursor, k: nat)
    requires BeginsAt(view, rows, cursor, k)
    ensures Query(view, rows, cursor) == Sort(Reading(view, cursor), rows)[k..]
  {
    WhereSuffix(Sort(Reading(view, cursor), rows), row => Selects(view, cursor, row), k);
  }

  lemma BeginsAtStart(view: View, rows: seq<Row>, cursor: Cursor)
    requires Unfiltered(view, cursor)
    ensures BeginsAt(view, rows, cursor, 0)
  {
  }

  /** A cursor at the row in place i of the reading order continues with place i + 1. */
  lemma BeginsAfterRow(view: View, rows: seq<Row>, cursor: Cursor, i: nat)
    requires Table(rows)
    requires i < |Sort(Reading(view, cursor), rows)| && StandsAt(view, cursor, Sort(Reading(view, cursor), rows)[i])
    ensures BeginsAt(view, rows, cursor, i + 1)
  {
    var reading := Reading(view, cursor);
    SortSorts(reading, rows);
    var s := Sort(reading, rows);
    forall j | 0 <= j < |s| ensures Selects(view, cursor, s[j]) <==> i + 1 <= j {
      ConditionSelectsPast(view, cursor, s[i], s[j]);
      assert j < i ==> Before(reading, s[j], s[i]);
      assert i < j ==> Before(reading, s[i], s[j]);
    }
  }

  lemma ForwardPage(view: View, rows: seq<Row>, size: nat, cursor: Cursor, k: nat)
    requires size > 0 && cursor.direction != Some(false) && BeginsAt(view, rows, cursor, k)
    ensures var s := Sort(view, rows);
            GetPage(view, rows, size, cursor)
            == Page(s[k..Min(k + size, |s|)], Some(k + size <= |s|), None, cursor)
  {
    QueryFrom(view, rows, cursor, k);
  }

  lemma ReversedTake(s: seq<Row>, k: nat, size: nat)
    requires k <= |s|
    ensures var found := Take(Reversed(s)[|s| - k..], size);
            |found| == Min(size, k) && Reversed(found) == s[k - Min(size, k)..k]
  {
  }

  lemma BackwardPageOf(view: View, rows: seq<Row>, size: nat, cursor: Cursor, read: seq<Row>)
    requires size > 0 && cursor.direction == Some(false) && Query(view, rows, cursor) == read
    ensures GetPage(view, rows, size, cursor)
            == Page(Reversed(Take(read, size)), None, Some(|Take(read, size)| >= size), cursor)
  {
  }

  lemma BackwardPage(view: View, rows: seq<Row>, size: nat, cursor: Cursor, k: nat)
    requires DistinctKeys(rows)
    requires size > 0 && cursor.direction == Some(false)
    requires k <= |Sort(view, rows)| && BeginsAt(view, rows, cursor, |Sort(view, rows)| - k)
    ensures var s := Sort(view, rows);
            GetPage(view, rows, size, cursor)
            == Page(s[k - Min(size, k)..k], None, Some(size <= k), cursor)
  {
    var s := Sort(view, rows);
    FlippedSort(view, rows);
    QueryFrom(view, rows, cursor, |s| - k);
    BackwardPageOf(view, rows, size, cursor, Reversed(s)[|s| - k..]);
    ReversedTake(s, k, size);
  }

  lemma SortedRows(view: View, rows: seq<Row>, i: nat)
    requires Table(rows) && i < |Sort(view, rows)|
    ensures Sort(view, rows)[i].pk > 0
  {
    SortSorts(view, rows);
    assert Sort(view, rows)[i] in multiset(Sort(view, rows));
    assert Sort(view, rows)[i] in rows;
  }

  /** Forward from the row in place i - 1, or from the start. */
  lemma PageAfter(view: View, rows: seq<Row>, size: nat, i: nat)
    requires Table(rows) && size > 0 && 0 < i <= |Sort(view, rows)|
    ensures var s := Sort(view, rows);
            var cursor := CursorAt(view, true, s[i - 1]);
            GetPage(view, rows, size, cursor) == Page(s[i..Min(i + size, |s|)], Some(i + size <= |s|), None, cursor)
  {
    var cursor := CursorAt(view, true, Sort(view, rows)[i - 1]);
    SortedRows(view, rows, i - 1);
    BeginsAfterRow(view, rows, cursor, i - 1);
    ForwardPage(view, rows, size, cursor, i);
  }

  lemma FirstPage(view: View, rows: seq<Row>, size: nat)
    requires size > 0
    ensures var s := Sort(view, rows);
            GetPage(view, rows, size, START) == Page(s[..Min(size, |s|)], Some(size <= |s|), None, START)
  {
    BeginsAtStart(view, rows, START);
    ForwardPage(view, rows, size, START, 0);
  }

  /** Backward from the row in place i. */
  lemma PageBefore(view: View, rows: seq<Row>, size: nat, i: nat)
    requires Table(rows) && size > 0 && i < |Sort(view, rows)|
    ensures var s := Sort(view, rows);
            var cursor := CursorAt(view, false, s[i]);
            GetPage(view, rows, size, cursor) == Page(s[i - Min(size, i)..i], None, Some(size <= i), cursor)
  {
    var s := Sort(view, rows);
    var cursor := CursorAt(view, false, s[i]);
    SortedRows(view, rows, i);
    FlippedSort(view, rows);
    assert Reversed(s)[|s| - 1 - i] == s[i];
    BeginsAfterRow(view, rows, cursor, |s| - 1 - i);
    BackwardPage(view, rows, size, cursor, i);
  }

  lemma LastPage(view: View, rows: seq<Row>, size: nat)
    requires DistinctKeys(rows) && size > 0
    ensures var s := Sort(view, rows);
            GetPage(view, rows, size, END) == Page(s[|s| - Min(size, |s|)..|s|], None, Some(size <= |s|), END)
  {
    BeginsAtStart(view, rows, END);
    BackwardPage(view, rows, size, END, |Sort(view, rows)|);
  }

  // ------------------------------------------------------------------ walks

  /** What a reader gets for a cursor: the rows of the page and the link that is followed. */
  datatype Visit = Visit(objects: seq<Row>, link: Option<Cursor>)

  /** The pages seen by following at most so many links. */
  function Walk(visit: Cursor -> Visit, cursor: Cursor, links: nat): seq<seq<Row>>
    decreases links
  {
    var v := visit(cursor);
    [v.objects] + if v.link.None? || links == 0 then [] else Walk(visit, v.link.value, links - 1)
  }

  function VisitForward(view: View, rows: seq<Row>, size: nat, cursor: Cursor): Visit {
    var page := GetPage(view, rows, size, cursor);
    Visit(page.objects, NextCursor(view, page, size))
  }

  function VisitBackward(view: View, rows: seq<Row>, size: nat, cursor: Cursor): Visit {
    var page := GetPage(view, rows, size, cursor);
    Visit(page.objects, PrevCursor(view, page, size))
  }

  function WalkNext(view: View, rows: seq<Row>, size: nat, cursor: Cursor, links: nat): seq<seq<Row>> {
    Walk(c => VisitForward(view, rows, size, c), cursor, links)
  }

  function WalkPrev(view: View, rows: seq<Row>, size: nat, cursor: Cursor, links: nat): seq<seq<Row>> {
    Walk(c => VisitBackward(view, rows, size, c), cursor, links)
  }

  /** From place i on: full pages, then whatever is left. */
  function Chunks(s: seq<Row>, size: nat, i: nat): seq<seq<Row>>
    requires size > 0 && i <= |s|
    decreases |s| - i
  {
    if i + size <= |s| then [s[i..i + size]] + Chunks(s, size, i + size) else [s[i..]]
  }

  /** From place i backwards: full pages, then whatever is left. */
  function BackChunks(s: seq<Row>, size: nat, i: nat): seq<seq<Row>>
    requires size > 0 && i <= |s|
    decreases i
  {
    if size <= i then [s[i - size..i]] + BackChunks(s, size, i - size) else [s[..i]]
  }

  function FlattenBack(pages: seq<seq<Row>>): seq<Row> {
    if pages == [] then [] else FlattenBack(pages[1..]) + pages[0]
  }

  lemma FlattenFirst(page: seq<Row>, rest: seq<seq<Row>>)
    ensures Flatten([page] + rest) == page + Flatten(rest)
    ensures FlattenBack([page] + rest) == FlattenBack(rest) + page
  {
    PartsOfConcat([page], rest);
  }

  lemma FlattenOne(page: seq<Row>)
    ensures Flatten([page]) == page && FlattenBack([page]) == page
  {
    assert [page][1..] == [];
    NothingAdded(page);
  }

  lemma {:induction false} ChunksFlatten(s: seq<Row>, size: nat, i: nat)
    requires size > 0 && i <= |s|
    ensures Flatten(Chunks(s, size, i)) == s[i..]
    decreases |s| - i
  {
    if i + size <= |s| {
      ChunksFlatten(s, size, i + size);
      FlattenFirst(s[i..i + size], Chunks(s, size, i + size));
      assert s[i..] == s[i..i + size] + s[i + size..];
    } else {
      FlattenOne(s[i..]);
    }
  }

  lemma {:induction false} BackChunksFlatten(s: seq<Row>, size: nat, i: nat)
    requires size > 0 && i <= |s|
    ensures FlattenBack(BackChunks(s, size, i)) == s[..i]
    decreases i
  {
    if size <= i {
      BackChunksFlatten(s, size, i - size);
      FlattenFirst(s[i - size..i], BackChunks(s, size, i - size));
      assert s[..i] == s[..i - size] + s[i - size..i];
    } else {
      FlattenOne(s[..i]);
    }
  }

  /** The cursor with which reading forward goes on at place i. */
  function PlaceCursor(view: View, s: seq<Row>, i: nat): Cursor {
    if 0 < i <= |s| then CursorAt(view, true, s[i - 1]) else START
  }

  function ChunkVisit(view: View, s: seq<Row>, size: nat, i: nat): Visit
    requires i <= |s|
  {
    if i + size <= |s| then Visit(s[i..i + size], Some(PlaceCursor(view, s, i + size))) else Visit(s[i..], None)
  }

  lemma WalkLink(visit: Cursor -> Visit, cursor: Cursor, links: nat, v: Visit)
    requires visit(cursor) == v
    ensures v.link == None ==> Walk(visit, cursor, links) == [v.objects]
    ensures v.link.Some? && links > 0 ==>
              Walk(visit, cursor, links) == [v.objects] + Walk(visit, v.link.value, links - 1)
  {
    NothingAdded([v.objects]);
  }

  predicate VisitsChunk(visit: Cursor -> Visit, view: View, s: seq<Row>, size: nat, j: nat)
    requires j <= |s|
  {
    visit(PlaceCursor(view, s, j)) == ChunkVisit(view, s, size, j)
  }

  /** A walk that gets chunk after chunk gets all chunks. */
  lemma {:induction false} WalkChunks(visit: Cursor -> Visit, view: View, s: seq<Row>, size: nat, i: nat, links: nat)
    requires size > 0 && i <= |s| && links >= |s| - i
    requires forall j :: 0 <= j <= |s| ==> VisitsChunk(visit, view, s, size, j)
    ensures Walk(visit, PlaceCursor(view, s, i), links) == Chunks(s, size, i)
    decreases |s| - i
  {
    if i + size <= |s| {
      WalkChunks(visit, view, s, size, i + size, links - 1);
    }
    WalkChunk(visit, view, s, size, i, links);
  }

  lemma WalkChunk(visit: Cursor -> Visit, view: View, s: seq<Row>, size: nat, i: nat, links: nat)
    requires size > 0 && i <= |s| && links >= |s| - i
    requires VisitsChunk(visit, view, s, size, i)
    requires i + size <= |s| ==> Walk(visit, PlaceCursor(view, s, i + size), links - 1) == Chunks(s, size, i + size)
    ensures Walk(visit, PlaceCursor(view, s, i), links) == Chunks(s, size, i)
  {
    WalkLink(visit, PlaceCursor(view, s, i), links, ChunkVisit(view, s, size, i));
  }

  /** A page that begins at place i, and its next link. */
  lemma NextFrom(view: View, s: seq<Row>, size: nat, i: nat, page: Page)
    requires size > 0 && i <= |s| && page.objects == s[i..Min(i + size, |s|)]
    requires page.hasNext == Some(i + size <= |s|) && page.cursor.direction != Some(false)
    ensures Visit(page.objects, NextCursor(view, page, size)) == ChunkVisit(view, s, size, i)
  {
  }

  lemma PlaceVisit(view: View, rows: seq<Row>, size: nat, i: nat)
    requires Table(rows) && size > 0 && i <= |Sort(view, rows)|
    ensures var s := Sort(view, rows);
            VisitForward(view, rows, size, PlaceCursor(view, s, i)) == ChunkVisit(view, s, size, i)
  {
    var s := Sort(view, rows);
    if i == 0 {
      FirstPage(view, rows, size);
      assert s[..Min(size, |s|)] == s[0..Min(0 + size, |s|)];
    } else {
      PageAfter(view, rows, size, i);
    }
    NextFrom(view, s, size, i, GetPage(view, rows, size, PlaceCursor(view, s, i)));
  }

  lemma WalkFromStart(view: View, rows: seq<Row>, size: nat, links: nat)
    requires Table(rows) && size > 0 && links >= |rows|
    ensures WalkNext(view, rows, size, START, links) == Chunks(Sort(view, rows), size, 0)
  {
    var s := Sort(view, rows);
    SortLength(view, rows);
    var visit := (c: Cursor) => VisitForward(view, rows, size, c);
    forall j | 0 <= j <= |s| ensures VisitsChunk(visit, view, s, size, j) {
      PlaceVisit(view, rows, size, j);
    }
    WalkChunks(visit, view, s, size, 0, links);
  }

  /** Following next links from the start ends, and the pages are the sorted rows cut into full pages and a rest. */
  lemma ForwardWalk(view: View, rows: seq<Row>, size: nat, links: nat)
    requires Table(rows) && size > 0 && links >= |rows|
    ensures Sorted(view, Sort(view, rows)) && multiset(Sort(view, rows)) == multiset(rows)
    ensures WalkNext(view, rows, size, START, links) == Chunks(Sort(view, rows), size, 0)
    ensures Flatten(WalkNext(view, rows, size, START, links)) == Sort(view, rows)
  {
    SortSorts(view, rows);
    WalkFromStart(view, rows, size, links);
    ChunksFlatten(Sort(view, rows), size, 0);
  }

  /** The cursor with which reading backward goes on before place i. */
  function BackCursor(view: View, s: seq<Row>, i: nat): Cursor {
    if i < |s| then CursorAt(view, false, s[i]) else END
  }

  function BackVisit(view: View, s: seq<Row>, size: nat, i: nat): Visit
    requires i <= |s|
  {
    if size <= i then Visit(s[i - size..i], Some(BackCursor(view, s, i - size))) else Visit(s[..i], None)
  }

  predicate VisitsBackChunk(visit: Cursor -> Visit, view: View, s: seq<Row>, size: nat, j: nat)
    requires j <= |s|
  {
    visit(BackCursor(view, s, j)) == BackVisit(view, s, size, j)
  }

  lemma {:induction false} WalkBackChunks(visit: Cursor -> Visit, view: View, s: seq<Row>, size: nat, i: nat, links: nat)
    requires size > 0 && i <= |s| && links >= i
    requires forall j :: 0 <= j <= |s| ==> VisitsBackChunk(visit, view, s, size, j)
    ensures Walk(visit, BackCursor(view, s, i), links) == BackChunks(s, size, i)
    decreases i
  {
    if size <= i {
      WalkBackChunks(visit, view, s, size, i - size, links - 1);
    }
    WalkBackChunk(visit, view, s, size, i, links);
  }

  lemma WalkBackChunk(visit: Cursor -> Visit, view: View, s: seq<Row>, size: nat, i: nat, links: nat)
    requires size > 0 && i <= |s| && links >= i
    requires VisitsBackChunk(visit, view, s, size, i)
    requires size <= i ==> Walk(visit, BackCursor(view, s, i - size), links - 1) == BackChunks(s, size, i - size)
    ensures Walk(visit, BackCursor(view, s, i), links) == BackChunks(s, size, i)
  {
    WalkLink(visit, BackCursor(view, s, i), links, BackVisit(view, s, size, i));
  }

  /** A page read backwards from place i, and its previous link. */
  lemma PrevBackFrom(view: View, s: seq<Row>, size: nat, i: nat, page: Page)
    requires size > 0 && i <= |s| && page.objects == s[i - Min(size, i)..i]
    requires page.hasPrev == Some(size <= i) && page.cursor.direction == Some(false)
    ensures Visit(page.objects, PrevCursor(view, page, size)) == BackVisit(view, s, size, i)
  {
  }

  lemma PlaceBackVisit(view: View, rows: seq<Row>, size: nat, i: nat)
    requires Table(rows) && size > 0 && i <= |Sort(view, rows)|
    ensures var s := Sort(view, rows);
            VisitBackward(view, rows, size, BackCursor(view, s, i)) == BackVisit(view, s, size, i)
  {
    var s := Sort(view, rows);
    if i < |s| {
      PageBefore(view, rows, size, i);
    } else {
      LastPage(view, rows, size);
    }
    PrevBackFrom(view, s, size, i, GetPage(view, rows, size, BackCursor(view, s, i)));
  }

  lemma WalkFromEnd(view: View, rows: seq<Row>, size: nat, links: nat)
    requires Table(rows) && size > 0 && links >= |rows|
    ensures WalkPrev(view, rows, size, END, links) == BackChunks(Sort(view, rows), size, |Sort(view, rows)|)
  {
    var s := Sort(view, rows);
    SortLength(view, rows);
    var visit := (c: Cursor) => VisitBackward(view, rows, size, c);
    forall j | 0 <= j <= |s| ensures VisitsBackChunk(visit, view, s, size, j) {
      PlaceBackVisit(view, rows, size, j);
    }
    WalkBackChunks(visit, view, s, size, |s|, links);
  }

  /** Following previous links from the end gives the sorted rows page by page, last page first. */
  lemma BackwardWalk(view: View, rows: seq<Row>, size: nat, links: nat)
    requires Table(rows) && size > 0 && links >= |rows|
    ensures WalkPrev(view, rows, size, END, links) == BackChunks(Sort(view, rows), size, |Sort(view, rows)|)
    ensures FlattenBack(WalkPrev(view, rows, size, END, links)) == Sort(view, rows)
  {
    WalkFromEnd(view, rows, size, links);
    BackChunksFlatten(Sort(view, rows), size, |Sort(view, rows)|);
  }

  // ------------------------------------------------------------------ there and back

  /** Whatever key a cursor names, the rows past it begin somewhere. */
  lemma {:induction false} BeginsSomewhere(view: View, s: seq<Row>, cursor: Cursor, key: Row) returns (k: nat)
    requires StandsAt(view, cursor, key) && Sorted(Reading(view, cursor), s)
    ensures k <= |s| && forall i :: 0 <= i < |s| ==> (Selects(view, cursor, s[i]) <==> k <= i)
  {
    k := 0;
    if s != [] {
      ConditionSelectsPast(view, cursor, key, s[0]);
      if Selects(view, cursor, s[0]) {
        forall i | 0 <= i < |s| ensures Selects(view, cursor, s[i]) {
          ConditionSelectsPast(view, cursor, key, s[i]);
          assert i > 0 ==> Before(Reading(view, cursor), s[0], s[i]);
        }
      } else {
        var j := BeginsSomewhere(view, s[1..], cursor, key);
        k := j + 1;
        forall i | 0 <= i < |s| ensures Selects(view, cursor, s[i]) <==> k <= i {
          assert i > 0 ==> s[i] == s[1..][i - 1];
        }
      }
    }
  }

  /** Every cursor asks for an end of the table or for the rows past some key, be there such a row or not. */
  lemma CursorKey(view: View, cursor: Cursor) returns (key: Row)
    requires !Unfiltered(view, cursor)
    ensures StandsAt(view, cursor, key)
  {
    key := Row(cursor.lastPk.value, cursor.lastValue);
  }

  lemma BeginsAnywhere(view: View, rows: seq<Row>, cursor: Cursor) returns (k: nat)
    requires Table(rows)
    ensures BeginsAt(view, rows, cursor, k)
  {
    var reading := Reading(view, cursor);
    SortSorts(reading, rows);
    k := 0;
    if Unfiltered(view, cursor) {
      BeginsAtStart(view, rows, cursor);
    } else {
      var key := CursorKey(view, cursor);
      k := BeginsSomewhere(view, Sort(reading, rows), cursor, key);
    }
  }

  /** The slice that a page shows, and what its flags say about where it ends. */
  predicate ShowsSlice(page: Page, s: seq<Row>, size: nat, lo: nat, hi: nat) {
    && lo <= hi <= |s| && page.objects == s[lo..hi] && hi - lo <= size
    && (if page.cursor.direction == Some(false)
        then page.hasPrev == Some(hi - lo == size) && page.hasNext == None && (hi - lo < size ==> lo == 0)
        else page.hasNext == Some(hi - lo == size) && page.hasPrev == None && (hi - lo < size ==> hi == |s|))
  }

  /** Every page is a slice of the sorted rows. */
  lemma PageIsSlice(view: View, rows: seq<Row>, size: nat, cursor: Cursor) returns (lo: nat, hi: nat)
    requires Table(rows) && size > 0
    ensures ShowsSlice(GetPage(view, rows, size, cursor), Sort(view, rows), size, lo, hi)
  {
    var n := |Sort(view, rows)|;
    var k := BeginsAnywhere(view, rows, cursor);
    if cursor.direction == Some(false) {
      SortLength(view, rows);
      SortLength(Flip(view), rows);
      hi := n - k;
      lo := hi - Min(size, hi);
      BackwardPage(view, rows, size, cursor, hi);
    } else {
      ForwardPage(view, rows, size, cursor, k);
      lo, hi := k, Min(k + size, n);
    }
  }

  /** The page that the previous link of a page beginning at place i leads to, and where its next link leads. */
  lemma PrevPage(view: View, rows: seq<Row>, size: nat, i: nat, prev: Cursor)
    requires Table(rows) && size > 0 && i <= |Sort(view, rows)|
    requires prev == (if i < |Sort(view, rows)| then CursorAt(view, false, Sort(view, rows)[i]) else END)
    ensures var s := Sort(view, rows);
            var first := GetPage(view, rows, size, prev);
            first.objects == s[i - Min(size, i)..i] && first.hasNext == None && first.cursor == prev
  {
    if i < |Sort(view, rows)| {
      PageBefore(view, rows, size, i);
    } else {
      LastPage(view, rows, size);
    }
  }

  /** The previous link of a page read forward from place i. */
  lemma PrevFrom(view: View, s: seq<Row>, size: nat, i: nat, page: Page)
    requires size > 0 && i <= |s| && page.objects == s[i..Min(i + size, |s|)]
    requires page.hasPrev == None && page.cursor.direction == Some(true)
    ensures PrevCursor(view, page, size) == Some(BackCursor(view, s, i))
  {
    if i < |s| {
      assert page.objects[0] == s[i];
    }
  }

  /** Past a full page ending at place i, the previous link leads back to it. */
  lemma BackToFullPage(view: View, rows: seq<Row>, size: nat, i: nat)
    requires Table(rows) && 0 < size <= i <= |Sort(view, rows)|
    ensures var s := Sort(view, rows);
            var prev := PrevCursor(view, GetPage(view, rows, size, CursorAt(view, true, s[i - 1])), size);
            prev.Some? && GetPage(view, rows, size, prev.value).objects == s[i - size..i]
  {
    var s := Sort(view, rows);
    PageAfter(view, rows, size, i);
    var page := GetPage(view, rows, size, CursorAt(view, true, s[i - 1]));
    PrevFrom(view, s, size, i, page);
    PrevPage(view, rows, size, i, PrevCursor(view, page, size).value);
  }

  /** Where the next link of a page leads, and where the previous link leads from there. */
  predicate ReturnsTo(view: View, rows: seq<Row>, size: nat, page: Page, next: Cursor) {
    var second := GetPage(view, rows, size, next);
    var prev := PrevCursor(view, second, size);
    if |page.objects| == size then prev.Some? && GetPage(view, rows, size, prev.value).objects == page.objects
    else next == START && prev == None && page.objects <= second.objects
  }

  lemma FullPageReturns(view: View, rows: seq<Row>, size: nat, page: Page, hi: nat)
    requires Table(rows) && 0 < size <= hi <= |Sort(view, rows)| && page.objects == Sort(view, rows)[hi - size..hi]
    ensures ReturnsTo(view, rows, size, page, CursorAt(view, true, Sort(view, rows)[hi - 1]))
  {
    BackToFullPage(view, rows, size, hi);
  }

  lemma ShortPageReturns(view: View, rows: seq<Row>, size: nat, page: Page, hi: nat)
    requires hi < size && hi <= |Sort(view, rows)| && page.objects == Sort(view, rows)[..hi]
    ensures ReturnsTo(view, rows, size, page, START)
  {
    FirstPage(view, rows, size);
  }

  lemma FullSliceNext(view: View, s: seq<Row>, size: nat, hi: nat, page: Page)
    requires 0 < size <= hi <= |s| && page.objects == s[hi - size..hi]
    ensures page.hasNext != Some(false) ==> NextCursor(view, page, size) == Some(CursorAt(view, true, s[hi - 1]))
    ensures page.hasNext == Some(false) ==> NextCursor(view, page, size) == None
  {
  }

  /**
    From any page, the next link and then the previous link lead back to the same rows; the one other next link is
    the restart after a short page at the front, whose first page begins with the very rows of that page.
   */
  lemma NextThenPrev(view: View, rows: seq<Row>, size: nat, cursor: Cursor)
    requires Table(rows) && size > 0
    ensures var page := GetPage(view, rows, size, cursor);
            var next := NextCursor(view, page, size);
            next.Some? ==> ReturnsTo(view, rows, size, page, next.value)
  {
    var page := GetPage(view, rows, size, cursor);
    var lo, hi := PageIsSlice(view, rows, size, cursor);
    if hi - lo == size {
      FullSliceNext(view, Sort(view, rows), size, hi, page);
      FullPageReturns(view, rows, size, page, hi);
    } else if NextCursor(view, page, size).Some? {
      ShortPageReturns(view, rows, size, page, hi);
    }
  }

  /** The page before place i, and what its next link leads to. */
  lemma ForthFromPrev(view: View, rows: seq<Row>, size: nat, i: nat, first: Page)
    requires Table(rows) && size > 0 && i <= |Sort(view, rows)|
    requires first.objects == Sort(view, rows)[i - Min(size, i)..i] && first.hasNext == None
    requires first.cursor.direction == Some(false)
    ensures var s := Sort(view, rows);
            var next := NextCursor(view, first, size);
            && next.Some?
            && (if size <= i then GetPage(view, rows, size, next.value).objects == s[i..Min(i + size, |s|)]
                else next.value == START && first.objects == s[..i])
  {
    var s := Sort(view, rows);
    if size <= i {
      FullSliceNext(view, s, size, i, first);
      PageAfter(view, rows, size, i);
    }
  }

  /** A page with a previous link begins where the link says, and is as long as the rows allow. */
  lemma PrevLinkFrom(view: View, s: seq<Row>, size: nat, lo: nat, hi: nat, page: Page)
    requires size > 0 && lo <= hi <= |s| && page.objects == s[lo..hi] && hi - lo <= size
    requires page.cursor.direction != Some(false) ==> (hi - lo < size ==> hi == |s|)
    requires page.cursor.direction == Some(false) ==> page.hasPrev == Some(hi - lo == size)
    requires PrevCursor(view, page, size).Some?
    ensures PrevCursor(view, page, size) == Some(if lo < |s| then CursorAt(view, false, s[lo]) else END)
    ensures hi == Min(lo + size, |s|)
  {
    if lo < hi {
      assert page.objects[0] == s[lo];
    }
  }

  /**
    From any page, the previous link and then the next link lead back to the same rows, unless the previous page is
    the short one at the front, from which the next link starts again with the first page.
   */
  lemma PrevThenNext(view: View, rows: seq<Row>, size: nat, cursor: Cursor)
    requires Table(rows) && size > 0
    ensures var page := GetPage(view, rows, size, cursor);
            var prev := PrevCursor(view, page, size);
            prev.Some? ==>
              (var first := GetPage(view, rows, size, prev.value);
               var next := NextCursor(view, first, size);
               && next.Some?
               && (if |first.objects| == size then GetPage(view, rows, size, next.value).objects == page.objects
                   else next.value == START && first.objects <= Sort(view, rows)))
  {
    var s := Sort(view, rows);
    var page := GetPage(view, rows, size, cursor);
    var lo, hi := PageIsSlice(view, rows, size, cursor);
    var prev := PrevCursor(view, page, size);
    if prev.Some? {
      PrevLinkFrom(view, s, size, lo, hi, page);
      PrevPage(view, rows, size, lo, prev.value);
      ForthFromPrev(view, rows, size, lo, GetPage(view, rows, size, prev.value));
    }
  }

  // ------------------------------------------------------------------ the object that serves pages

  class Paginator {
    const view: View
    const pageSize: nat
    var cursor: Cursor
    var objectList: seq<Row>
    var hasNext: Option<bool>
    var hasPrev: Option<bool>

    constructor (view: View, pageSize: nat)
      ensures this.view == view && this.pageSize == pageSize
    {
      this.view, this.pageSize := view, pageSize;
      cursor, objectList, hasNext, hasPrev := START, [], None, None;
    }

    function Shown(): Page
      reads this
    {
      Page(objectList, hasNext, hasPrev, cursor)
    }

    method Serve(rows: seq<Row>, asked: Cursor)
      modifies this
      ensures Shown() == GetPage(view, rows, pageSize, asked)
    {
      cursor := asked;
      var found := Query(view, rows, asked);
      hasNext, hasPrev := None, None;
      if pageSize == 0 {
        objectList := [];
        return;
      }
      found := Take(found, pageSize);
      var hasMore := |found| >= pageSize;
      if asked.direction == Some(false) {
        hasPrev := Some(hasMore);
        objectList := Reversed(found);
      } else {
        hasNext := Some(hasMore);
        objectList := found;
      }
    }
  }
}
