/**
 The session catalogue, listed in pages that a cursor continues. The cursor names the last entry of a page by path and
 time, so that paging survives the deletion of any entry, including the one the cursor names.
 */
module SessionCatalogueSpec {
  import opened Collections
  import opened Protocol

  /** A path, by its place in the order of strings. */
  type Path = nat

  const DEFAULT_PAGE_SIZE := 30
  const MAX_PAGE_SIZE := 100

  datatype File = File(path: Path, mtimeMs: real, readable: bool)

  /** A live session: its file or its stand-in path, and when it was modified, if that parses. */
  datatype Live = Live(path: Path, modified: Option<real>)

  /** `summary` tells whether a summary can be built: always from live state, and from a file that can be read. */
  datatype Entry = Entry(path: Path, mtimeMs: real, summary: bool)

  datatype Cursor = Issued(path: Path, mtimeMs: real) | Unrecognised

  datatype Listing = Listing(items: seq<Entry>, page: seq<Entry>, nextCursor: Option<Cursor>) | InvalidParams

  // ── What is listed ────────────────────────────────────────────────────────

  /** Sets a path's entry, in place when it has one. */
  function Put(entries: seq<Entry>, e: Entry): seq<Entry> {
    if entries == [] then [e]
    else if entries[0].path == e.path then [e] + entries[1..]
    else [entries[0]] + Put(entries[1..], e)
  }

  function PutAll(entries: seq<Entry>, more: seq<Entry>): seq<Entry>
    decreases |more|
  {
    if more == [] then entries else PutAll(Put(entries, more[0]), more[1..])
  }

  function FileEntry(file: File): Entry {
    Entry(file.path, file.mtimeMs, file.readable)
  }

  function LiveEntry(live: Live): Entry {
    Entry(live.path, if live.modified.Some? then live.modified.value else 0.0, true)
  }

  function FileEntries(files: seq<File>): seq<Entry> {
    seq(|files|, i requires 0 <= i < |files| => FileEntry(files[i]))
  }

  function LiveEntries(live: seq<Live>): seq<Entry> {
    seq(|live|, i requires 0 <= i < |live| => LiveEntry(live[i]))
  }

  /** Live state is more authoritative than the file. */
  function Merged(files: seq<File>, live: seq<Live>): seq<Entry> {
    PutAll(PutAll([], FileEntries(files)), LiveEntries(live))
  }

  predicate DistinctPaths(entries: seq<Entry>) {
    forall i, j :: 0 <= i < j < |entries| ==> entries[i].path != entries[j].path
  }

  /** Newest first, ties by path. */
  predicate Before(t: real, p: Path, u: real, q: Path) {
    t > u || (t == u && p < q)
  }

  predicate Precedes(a: Entry, b: Entry) {
    Before(a.mtimeMs, a.path, b.mtimeMs, b.path)
  }

  function Insert(e: Entry, sorted: seq<Entry>): seq<Entry> {
    if sorted == [] || Precedes(e, sorted[0]) then [e] + sorted else [sorted[0]] + Insert(e, sorted[1..])
  }

  function Ordered(entries: seq<Entry>): seq<Entry> {
    if entries == [] then [] else Insert(entries[0], Ordered(entries[1..]))
  }

  predicate Sorted(entries: seq<Entry>) {
    forall i, j :: 0 <= i < j < |entries| ==> Precedes(entries[i], entries[j])
  }

  // ── One page ──────────────────────────────────────────────────────────────

  function PageSize(limit: Option<int>): nat {
    var asked := if limit.Some? then limit.value else DEFAULT_PAGE_SIZE;
    var atLeastOne := if asked < 1 then 1 else asked;
    if atLeastOne < MAX_PAGE_SIZE then atLeastOne else MAX_PAGE_SIZE
  }

  /** Where the entry with this path is. */
  function IndexOfPath(entries: seq<Entry>, path: Path): (index: Option<nat>)
    ensures index.Some? ==> index.value < |entries|
  {
    if entries == [] then None
    else if entries[0].path == path then Some(0)
    else match IndexOfPath(entries[1..], path) case None => None case Some(i) => Some(i + 1)
  }

  /** Where the first entry is that comes after a cursor whose own entry is gone. */
  function IndexAfter(entries: seq<Entry>, mtimeMs: real, path: Path): (index: Option<nat>)
    ensures index.Some? ==> index.value < |entries|
  {
    if entries == [] then None
    else if entries[0].mtimeMs < mtimeMs || (entries[0].mtimeMs == mtimeMs && entries[0].path > path) then Some(0)
    else match IndexAfter(entries[1..], mtimeMs, path) case None => None case Some(i) => Some(i + 1)
  }

  /** Where the page starts; None when nothing comes after the cursor. */
  function StartOf(entries: seq<Entry>, cursor: Option<Cursor>): (start: Option<nat>)
    requires cursor.Some? ==> cursor.value.Issued?
    ensures start.Some? ==> start.value <= |entries|
  {
    if cursor.None? then Some(0)
    else match IndexOfPath(entries, cursor.value.path)
         case Some(i) => Some(i + 1)
         case None => IndexAfter(entries, cursor.value.mtimeMs, cursor.value.path)
  }

  function Summaries(page: seq<Entry>): seq<Entry> {
    if page == [] then []
    else if page[0].summary then [page[0]] + Summaries(page[1..])
    else Summaries(page[1..])
  }

  function Min(a: nat, b: nat): nat { if a < b then a else b }

  function List(ordered: seq<Entry>, limit: Option<int>, cursor: Option<Cursor>): Listing {
    if cursor.Some? && cursor.value.Unrecognised? then InvalidParams
    else match StartOf(ordered, cursor)
         case None => Listing([], [], None)
         case Some(start) => ListFrom(ordered, start, PageSize(limit))
  }

  function ListFrom(ordered: seq<Entry>, start: nat, pageSize: nat): Listing
    requires start <= |ordered|
  {
    var page := ordered[start..Min(start + pageSize, |ordered|)];
    var hasMore := start + |page| < |ordered|;
    Listing(Summaries(page), page,
            if hasMore && page != [] then Some(Issued(page[|page| - 1].path, page[|page| - 1].mtimeMs)) else None)
  }

  // ── What a listing is made of ─────────────────────────────────────────────

  lemma {:induction false} PutKeepsPathsDistinct(entries: seq<Entry>, e: Entry)
    requires DistinctPaths(entries)
    ensures DistinctPaths(Put(entries, e))
    ensures forall x :: x in Put(entries, e) <==> x == e || (x in entries && x.path != e.path)
    decreases |entries|
  {
    if entries != [] {
      var rest := entries[1..];
      assert forall i :: 0 <= i < |rest| ==> rest[i] == entries[i + 1] && rest[i].path != entries[0].path;
      if entries[0].path != e.path {
        PutKeepsPathsDistinct(rest, e);
        var tail := Put(rest, e);
        forall i | 0 <= i < |tail| ensures tail[i].path != entries[0].path { assert tail[i] in tail; }
      }
    }
  }

  predicate Mentions(entries: seq<Entry>, path: Path) {
    exists i :: 0 <= i < |entries| && entries[i].path == path
  }

  /** The entry is the last one of its path. */
  predicate LastOfPath(entries: seq<Entry>, e: Entry) {
    exists i :: 0 <= i < |entries| && entries[i] == e && !Mentions(entries[i + 1..], e.path)
  }

  lemma MentionsShifts(entries: seq<Entry>, path: Path)
    requires entries != []
    ensures Mentions(entries, path) <==> entries[0].path == path || Mentions(entries[1..], path)
  {
    assert forall i :: 0 <= i < |entries[1..]| ==> entries[1..][i] == entries[i + 1];
    assert forall i :: 1 <= i < |entries| ==> entries[i] == entries[1..][i - 1];
  }

  lemma LastOfPathShifts(entries: seq<Entry>, e: Entry)
    requires entries != []
    ensures LastOfPath(entries, e) <==> LastOfPath(entries[1..], e) || (entries[0] == e && !Mentions(entries[1..], e.path))
  {
    var rest := entries[1..];
    assert forall i :: 0 <= i < |rest| ==> rest[i] == entries[i + 1] && rest[i + 1..] == entries[i + 2..];
    if LastOfPath(entries, e) {
      var i :| 0 <= i < |entries| && entries[i] == e && !Mentions(entries[i + 1..], e.path);
      if i > 0 { assert rest[i - 1] == e && rest[i..] == entries[i + 1..]; }
    }
    if LastOfPath(rest, e) {
      var i :| 0 <= i < |rest| && rest[i] == e && !Mentions(rest[i + 1..], e.path);
      assert entries[i + 1] == e && entries[i + 2..] == rest[i + 1..];
    }
  }

  /** Of each path the last entry put stays, and what was there stays where no later entry has its path. */
  lemma {:induction false} PutAllKeepsLast(entries: seq<Entry>, more: seq<Entry>, e: Entry)
    requires DistinctPaths(entries)
    ensures DistinctPaths(PutAll(entries, more))
    ensures e in PutAll(entries, more) <==> LastOfPath(more, e) || (e in entries && !Mentions(more, e.path))
    decreases |more|
  {
    if more != [] {
      PutKeepsPathsDistinct(entries, more[0]);
      PutAllKeepsLast(Put(entries, more[0]), more[1..], e);
      MentionsShifts(more, e.path);
      LastOfPathShifts(more, e);
    }
  }

  /** Live state is listed where there is any; the file is listed otherwise. Of several of one path the last counts. */
  predicate Listed(files: seq<File>, live: seq<Live>, e: Entry) {
    LastOfPath(LiveEntries(live), e) || (LastOfPath(FileEntries(files), e) && !Mentions(LiveEntries(live), e.path))
  }

  lemma MergedIsListed(files: seq<File>, live: seq<Live>, e: Entry)
    ensures e in Merged(files, live) <==> Listed(files, live, e)
  {
    PutAllKeepsLast([], FileEntries(files), e);
    PutAllKeepsLast(PutAll([], FileEntries(files)), LiveEntries(live), e);
  }

  lemma {:induction false} SomeLast(entries: seq<Entry>, path: Path)
    requires Mentions(entries, path)
    ensures exists e: Entry :: e.path == path && LastOfPath(entries, e)
    decreases |entries|
  {
    MentionsShifts(entries, path);
    if Mentions(entries[1..], path) {
      SomeLast(entries[1..], path);
      var e: Entry :| e.path == path && LastOfPath(entries[1..], e);
      LastOfPathShifts(entries, e);
    } else {
      LastOfPathShifts(entries, entries[0]);
    }
  }

  /** A path is listed exactly when a file or a live session has it. */
  lemma PathIsListedIff(files: seq<File>, live: seq<Live>, path: Path)
    ensures Mentions(Merged(files, live), path) <==>
              (exists i :: 0 <= i < |files| && files[i].path == path) || (exists i :: 0 <= i < |live| && live[i].path == path)
  {
    var fs, ls := FileEntries(files), LiveEntries(live);
    assert forall i :: 0 <= i < |files| ==> fs[i].path == files[i].path;
    assert forall i :: 0 <= i < |live| ==> ls[i].path == live[i].path;
    if Mentions(Merged(files, live), path) {
      var i :| 0 <= i < |Merged(files, live)| && Merged(files, live)[i].path == path;
      MergedIsListed(files, live, Merged(files, live)[i]);
    }
    if Mentions(ls, path) {
      SomeLast(ls, path);
      var e: Entry :| e.path == path && LastOfPath(ls, e);
      MergedIsListed(files, live, e);
    } else if Mentions(fs, path) {
      SomeLast(fs, path);
      var e: Entry :| e.path == path && LastOfPath(fs, e);
      MergedIsListed(files, live, e);
    }
  }

  lemma {:induction false} InsertSorts(e: Entry, sorted: seq<Entry>)
    requires Sorted(sorted) && forall i :: 0 <= i < |sorted| ==> sorted[i].path != e.path
    ensures Sorted(Insert(e, sorted)) && forall x :: x in Insert(e, sorted) <==> x == e || x in sorted
    decreases |sorted|
  {
    if sorted != [] && !Precedes(e, sorted[0]) {
      var rest := sorted[1..];
      assert forall i :: 0 <= i < |rest| ==> rest[i] == sorted[i + 1];
      InsertSorts(e, rest);
      var tail := Insert(e, rest);
      forall i | 0 <= i < |tail| ensures Precedes(sorted[0], tail[i]) { assert tail[i] in tail; }
      assert forall x :: x in sorted <==> x == sorted[0] || x in rest;
    }
  }

  /** The order is total on entries of distinct paths: sorting loses and adds nothing. */
  lemma {:induction false} OrderedSorts(entries: seq<Entry>)
    requires DistinctPaths(entries)
    ensures Sorted(Ordered(entries)) && forall x :: x in Ordered(entries) <==> x in entries
    decreases |entries|
  {
    if entries != [] {
      var rest := entries[1..];
      assert forall i :: 0 <= i < |rest| ==> rest[i] == entries[i + 1];
      OrderedSorts(rest);
      var sorted := Ordered(rest);
      forall i | 0 <= i < |sorted| ensures sorted[i].path != entries[0].path { assert sorted[i] in sorted; }
      InsertSorts(entries[0], sorted);
    }
  }

  lemma MergedDistinct(files: seq<File>, live: seq<Live>)
    ensures DistinctPaths(Merged(files, live))
  {
    var any := Entry(0, 0.0, true);
    PutAllKeepsLast([], FileEntries(files), any);
    PutAllKeepsLast(PutAll([], FileEntries(files)), LiveEntries(live), any);
  }

  lemma OrderedDistinct(entries: seq<Entry>)
    requires DistinctPaths(entries)
    ensures DistinctPaths(Ordered(entries))
  {
    OrderedSorts(entries);
    var sorted := Ordered(entries);
    forall i, j | 0 <= i < j < |sorted| ensures sorted[i].path != sorted[j].path {
      assert Precedes(sorted[i], sorted[j]);
      assert sorted[i] in sorted && sorted[j] in sorted;
      var a :| 0 <= a < |entries| && entries[a] == sorted[i];
      var b :| 0 <= b < |entries| && entries[b] == sorted[j];
      assert a != b;
    }
  }

  /** What is listed is sorted, with one entry per path: that of the live session when there is one and otherwise that
      of the file, and nothing else. */
  lemma CatalogueIsSorted(files: seq<File>, live: seq<Live>)
    ensures var entries := Merged(files, live);
            && DistinctPaths(entries) && Sorted(Ordered(entries)) && DistinctPaths(Ordered(entries))
            && forall x :: x in Ordered(entries) <==> Listed(files, live, x)
  {
    MergedDistinct(files, live);
    OrderedSorts(Merged(files, live));
    OrderedDistinct(Merged(files, live));
    forall x ensures x in Ordered(Merged(files, live)) <==> Listed(files, live, x) { MergedIsListed(files, live, x); }
  }

  // ── Following cursors ─────────────────────────────────────────────────────

  predicate IsAfter(cursor: Option<Cursor>, e: Entry) {
    cursor.Some? && cursor.value.Issued? ==> Before(cursor.value.mtimeMs, cursor.value.path, e.mtimeMs, e.path)
  }

  /** The cursor's own entry, if it is still there, has not been touched. */
  predicate Untouched(entries: seq<Entry>, cursor: Option<Cursor>) {
    cursor.Some? && cursor.value.Issued? ==>
      forall i :: 0 <= i < |entries| && entries[i].path == cursor.value.path ==> entries[i].mtimeMs == cursor.value.mtimeMs
  }

  lemma {:induction false} IndexOfPathIs(entries: seq<Entry>, path: Path)
    ensures var i := IndexOfPath(entries, path);
            && (i.Some? ==> entries[i.value].path == path)
            && (i.None? ==> forall j :: 0 <= j < |entries| ==> entries[j].path != path)
    decreases |entries|
  {
    if entries != [] {
      IndexOfPathIs(entries[1..], path);
      assert forall j :: 1 <= j < |entries| ==> entries[j] == entries[1..][j - 1];
    }
  }

  lemma {:induction false} IndexAfterIs(entries: seq<Entry>, mtimeMs: real, path: Path)
    ensures var i := IndexAfter(entries, mtimeMs, path);
            && (i.Some? ==> Before(mtimeMs, path, entries[i.value].mtimeMs, entries[i.value].path))
            && (forall j :: 0 <= j < (if i.Some? then i.value else |entries|) ==>
                  !Before(mtimeMs, path, entries[j].mtimeMs, entries[j].path))
    decreases |entries|
  {
    if entries != [] {
      IndexAfterIs(entries[1..], mtimeMs, path);
      assert forall j :: 1 <= j < |entries| ==> entries[j] == entries[1..][j - 1];
    }
  }

  /** A page starts just after the cursor's place, whether or not its entry is still there. */
  lemma StartSplits(entries: seq<Entry>, cursor: Option<Cursor>)
    requires Sorted(entries) && Untouched(entries, cursor) && (cursor.Some? ==> cursor.value.Issued?)
    ensures var start := StartOf(entries, cursor); var n := if start.Some? then start.value else |entries|;
            forall j :: 0 <= j < |entries| ==> (IsAfter(cursor, entries[j]) <==> n <= j)
  {
    if cursor.Some? {
      var c := cursor.value;
      IndexOfPathIs(entries, c.path);
      IndexAfterIs(entries, c.mtimeMs, c.path);
      var start := StartOf(entries, cursor);
      var n := if start.Some? then start.value else |entries|;
      forall j | 0 <= j < |entries| ensures IsAfter(cursor, entries[j]) <==> n <= j {
        if IndexOfPath(entries, c.path).Some? {
          assert j < n - 1 ==> Precedes(entries[j], entries[n - 1]);
          assert j > n - 1 ==> Precedes(entries[n - 1], entries[j]);
        } else if start.Some? && j > n {
          assert Precedes(entries[n], entries[j]);
        }
      }
    }
  }

  /** One request per catalogue and limit, each with the cursor the one before returned, until there is none. */
  function Followed(catalogues: seq<seq<Entry>>, limits: seq<Option<int>>, cursor: Option<Cursor>): seq<Entry>
    requires |limits| == |catalogues|
    decreases |catalogues|
  {
    if catalogues == [] then []
    else match List(catalogues[0], limits[0], cursor)
         case InvalidParams => []
         case Listing(_, page, next) => if next.None? then page else page + Followed(catalogues[1..], limits[1..], next)
  }

  /** How many requests it takes, or None if the last of them still returned a cursor. */
  function Finishes(catalogues: seq<seq<Entry>>, limits: seq<Option<int>>, cursor: Option<Cursor>): Option<nat>
    requires |limits| == |catalogues|
    decreases |catalogues|
  {
    if catalogues == [] then None
    else match List(catalogues[0], limits[0], cursor)
         case InvalidParams => None
         case Listing(_, _, next) =>
           if next.None? then Some(1)
           else match Finishes(catalogues[1..], limits[1..], next) case None => None case Some(n) => Some(n + 1)
  }

  predicate Within(few: seq<Entry>, many: seq<Entry>) {
    forall e :: e in few ==> e in many
  }

  /** Between requests entries are only deleted. */
  predicate Shrinking(catalogues: seq<seq<Entry>>) {
    && (forall k :: 0 <= k < |catalogues| ==> Sorted(catalogues[k]) && DistinctPaths(catalogues[k]))
    && (forall j, k :: 0 <= j <= k < |catalogues| ==> Within(catalogues[k], catalogues[j]))
  }

  /** A page is the stretch of the catalogue from just after its cursor; it returns a cursor exactly when entries
      follow the page, and that cursor stands for the page's end. */
  lemma PageIs(entries: seq<Entry>, limit: Option<int>, cursor: Option<Cursor>) returns (n: nat, end: nat)
    requires Sorted(entries) && Untouched(entries, cursor) && (cursor.Some? ==> cursor.value.Issued?)
    ensures var l := List(entries, limit, cursor);
            && l.Listing? && n <= end <= |entries| && l.page == entries[n..end]
            && (l.nextCursor.Some? <==> end < |entries|)
            && (l.nextCursor.Some? ==> n < end && l.nextCursor.value == Issued(entries[end - 1].path, entries[end - 1].mtimeMs))
    ensures forall j :: 0 <= j < |entries| ==> (IsAfter(cursor, entries[j]) <==> n <= j)
  {
    StartSplits(entries, cursor);
    var start := StartOf(entries, cursor);
    n := if start.Some? then start.value else |entries|;
    end := if start.Some? then Min(n + PageSize(limit), |entries|) else |entries|;
    assert entries[|entries|..] == [];
  }

  /** What a page leaves for later is what comes after the cursor it returned. */
  lemma CursorSplits(entries: seq<Entry>, end: nat, cursor: Option<Cursor>)
    requires Sorted(entries) && 0 < end <= |entries|
    requires cursor == Some(Issued(entries[end - 1].path, entries[end - 1].mtimeMs))
    ensures forall j :: 0 <= j < |entries| ==> (IsAfter(cursor, entries[j]) <==> end <= j)
  {
    forall j | 0 <= j < |entries| ensures IsAfter(cursor, entries[j]) <==> end <= j {
      if j < end - 1 { assert Precedes(entries[j], entries[end - 1]); }
      if j >= end { assert Precedes(entries[end - 1], entries[j]); }
    }
  }

  lemma NextUntouched(entries: seq<Entry>, later: seq<Entry>, end: nat)
    requires DistinctPaths(entries) && Within(later, entries) && 0 < end <= |entries|
    ensures Untouched(later, Some(Issued(entries[end - 1].path, entries[end - 1].mtimeMs)))
  {
    forall i | 0 <= i < |later| && later[i].path == entries[end - 1].path ensures later[i] == entries[end - 1] {
      assert later[i] in later;
      var j :| 0 <= j < |entries| && entries[j] == later[i];
    }
  }

  lemma SortedConcat(a: seq<Entry>, b: seq<Entry>)
    requires Sorted(a) && Sorted(b) && (a != [] ==> forall e :: e in b ==> Precedes(a[|a| - 1], e))
    ensures Sorted(a + b)
  {
    forall i, j | 0 <= i < j < |a + b| ensures Precedes((a + b)[i], (a + b)[j]) {
      if i < |a| <= j {
        assert b[j - |a|] in b;
        assert i < |a| - 1 ==> Precedes(a[i], a[|a| - 1]);
      }
    }
  }

  /** Following cursors while entries are deleted: nothing is visited twice, nothing outside is visited, and once the
      cursors run out every entry still there has been visited. */
  ghost predicate Exact(catalogues: seq<seq<Entry>>, limits: seq<Option<int>>, cursor: Option<Cursor>)
    requires |limits| == |catalogues| > 0
  {
    var visited := Followed(catalogues, limits, cursor);
    var finished := Finishes(catalogues, limits, cursor);
    && Sorted(visited)
    && (forall e :: e in visited ==> e in catalogues[0] && IsAfter(cursor, e))
    && (finished.Some? ==>
          && 0 < finished.value <= |catalogues|
          && (forall e :: e in catalogues[finished.value - 1] && IsAfter(cursor, e) ==> e in visited))
  }

  lemma PageAlone(catalogues: seq<seq<Entry>>, limits: seq<Option<int>>, cursor: Option<Cursor>)
    requires |limits| == |catalogues| > 0 && List(catalogues[0], limits[0], cursor).Listing?
    requires List(catalogues[0], limits[0], cursor).nextCursor.Some? ==> |catalogues| == 1
    ensures Followed(catalogues, limits, cursor) == List(catalogues[0], limits[0], cursor).page
    ensures Finishes(catalogues, limits, cursor) == if List(catalogues[0], limits[0], cursor).nextCursor.None? then Some(1) else None
  {
    if |catalogues| == 1 {
      var l := List(catalogues[0], limits[0], cursor);
      assert Followed(catalogues[1..], limits[1..], l.nextCursor) == [];
      assert l.page + [] == l.page;
    }
  }

  lemma WholeStretch(entries: seq<Entry>, n: nat, end: nat, cursor: Option<Cursor>)
    requires Sorted(entries) && n <= end <= |entries|
    requires forall j :: 0 <= j < |entries| ==> (IsAfter(cursor, entries[j]) <==> n <= j)
    ensures Sorted(entries[n..end])
    ensures forall e :: e in entries[n..end] ==> e in entries && IsAfter(cursor, e)
    ensures end == |entries| ==> forall e :: e in entries && IsAfter(cursor, e) ==> e in entries[n..end]
  {
    forall e | e in entries && IsAfter(cursor, e) && end == |entries| ensures e in entries[n..end] {
      var j :| 0 <= j < |entries| && entries[j] == e;
      assert entries[n..end][j - n] == e;
    }
  }

  /** A single page: all there is if it returns no cursor. */
  lemma PageIsExact(catalogues: seq<seq<Entry>>, limits: seq<Option<int>>, cursor: Option<Cursor>, n: nat, end: nat)
    requires |limits| == |catalogues| > 0 && Sorted(catalogues[0])
    requires var entries := catalogues[0]; var l := List(entries, limits[0], cursor);
             && l.Listing? && n <= end <= |entries| && l.page == entries[n..end]
             && (l.nextCursor.None? ==> end == |entries|)
             && (l.nextCursor.Some? ==> |catalogues| == 1)
             && (forall j :: 0 <= j < |entries| ==> (IsAfter(cursor, entries[j]) <==> n <= j))
    ensures Exact(catalogues, limits, cursor)
  {
    PageAlone(catalogues, limits, cursor);
    WholeStretch(catalogues[0], n, end, cursor);
  }

  lemma {:induction false} FollowingIsExact(catalogues: seq<seq<Entry>>, limits: seq<Option<int>>, cursor: Option<Cursor>)
    requires |limits| == |catalogues| > 0 && Shrinking(catalogues)
    requires Untouched(catalogues[0], cursor) && (cursor.Some? ==> cursor.value.Issued?)
    ensures Exact(catalogues, limits, cursor)
    decreases |catalogues|
  {
    var entries := catalogues[0];
    var n, end := PageIs(entries, limits[0], cursor);
    var next := List(entries, limits[0], cursor).nextCursor;
    if next.None? || |catalogues| == 1 {
      PageIsExact(catalogues, limits, cursor, n, end);
    } else {
      NextUntouched(entries, catalogues[1], end);
      FollowingIsExact(catalogues[1..], limits[1..], next);
      CursorSplits(entries, end, next);
      RestIsExact(catalogues, limits, cursor, n, end);
    }
  }

  /** A page and what is found after its cursor, together, are in order and nothing but what comes after the page's own
      cursor; and they miss nothing of a later catalogue that the rest does not miss. */
  lemma PageThenRest(entries: seq<Entry>, n: nat, end: nat, cursor: Option<Cursor>, next: Option<Cursor>, rest: seq<Entry>)
    requires Sorted(entries) && n < end <= |entries| && Sorted(rest)
    requires forall j :: 0 <= j < |entries| ==> (IsAfter(cursor, entries[j]) <==> n <= j)
    requires forall j :: 0 <= j < |entries| ==> (IsAfter(next, entries[j]) <==> end <= j)
    requires forall e :: e in rest ==> e in entries && IsAfter(next, e)
    ensures Sorted(entries[n..end] + rest)
    ensures forall e :: e in entries[n..end] + rest ==> e in entries && IsAfter(cursor, e)
    ensures forall e :: e in entries && IsAfter(cursor, e) && (IsAfter(next, e) ==> e in rest) ==> e in entries[n..end] + rest
  {
    var page := entries[n..end];
    assert page[|page| - 1] == entries[end - 1];
    forall e | e in rest ensures IsAfter(cursor, e) && Precedes(entries[end - 1], e) {
      var j :| 0 <= j < |entries| && entries[j] == e;
    }
    SortedConcat(page, rest);
    forall e | e in entries && IsAfter(cursor, e) && (IsAfter(next, e) ==> e in rest) ensures e in page + rest {
      var j :| 0 <= j < |entries| && entries[j] == e;
      if j < end { assert page[j - n] == e; }
    }
  }

  lemma RestIsExact(catalogues: seq<seq<Entry>>, limits: seq<Option<int>>, cursor: Option<Cursor>, n: nat, end: nat)
    requires |limits| == |catalogues| > 1 && Shrinking(catalogues)
    requires var entries := catalogues[0]; var l := List(entries, limits[0], cursor);
             && l.Listing? && n < end <= |entries| && l.page == entries[n..end] && l.nextCursor.Some?
             && (forall j :: 0 <= j < |entries| ==> (IsAfter(cursor, entries[j]) <==> n <= j))
             && (forall j :: 0 <= j < |entries| ==> (IsAfter(l.nextCursor, entries[j]) <==> end <= j))
             && Exact(catalogues[1..], limits[1..], l.nextCursor)
    ensures Exact(catalogues, limits, cursor)
  {
    var entries := catalogues[0];
    var next := List(entries, limits[0], cursor).nextCursor;
    var rest := Followed(catalogues[1..], limits[1..], next);
    assert Within(catalogues[1], entries);
    PageThenRest(entries, n, end, cursor, next, rest);
    var finished := Finishes(catalogues, limits, cursor);
    if finished.Some? {
      assert catalogues[finished.value - 1] == catalogues[1..][finished.value - 2];
      assert Within(catalogues[finished.value - 1], entries);
    }
  }

  /** Every page but the last visits something new, so paging ends within one request more than there are entries. */
  lemma {:induction false} FollowingEnds(catalogues: seq<seq<Entry>>, limits: seq<Option<int>>, cursor: Option<Cursor>, ahead: nat)
    requires |limits| == |catalogues| > 0 && Shrinking(catalogues)
    requires Untouched(catalogues[0], cursor) && (cursor.Some? ==> cursor.value.Issued?)
    requires ahead == |AfterCursor(catalogues[0], cursor)| < |catalogues|
    ensures Finishes(catalogues, limits, cursor).Some?
    decreases |catalogues|
  {
    var entries := catalogues[0];
    var n, end := PageIs(entries, limits[0], cursor);
    var l := List(entries, limits[0], cursor);
    if l.nextCursor.Some? {
      CursorSplits(entries, end, l.nextCursor);
      var here, later := AfterCursor(entries, cursor), AfterCursor(catalogues[0], l.nextCursor);
      assert entries[end - 1] in here && later <= here - {entries[end - 1]};
      SubsetSize(later, here - {entries[end - 1]});
      assert |catalogues| > 1;
      assert Within(catalogues[1], entries);
      SubsetSize(AfterCursor(catalogues[1], l.nextCursor), later);
      NextUntouched(entries, catalogues[1], end);
      FollowingEnds(catalogues[1..], limits[1..], l.nextCursor, |AfterCursor(catalogues[1], l.nextCursor)|);
    }
  }

  ghost function AfterCursor(entries: seq<Entry>, cursor: Option<Cursor>): set<Entry> {
    set e | e in entries && IsAfter(cursor, e)
  }

  lemma {:induction false} EntriesAhead(entries: seq<Entry>, cursor: Option<Cursor>)
    ensures |AfterCursor(entries, cursor)| <= |entries|
    decreases |entries|
  {
    if entries != [] {
      EntriesAhead(entries[1..], cursor);
      var e := entries[0];
      SubsetSize(AfterCursor(entries, cursor), AfterCursor(entries[1..], cursor) + {e});
    } else {
      assert AfterCursor(entries, cursor) == {};
    }
  }

  /** Listing from the start: with as many requests as there are entries and one more, the cursors run out; nothing is
      visited twice; and every entry that was never deleted meanwhile has been visited. With an unchanging catalogue
      that is the whole catalogue. */
  lemma PagingIsExact(catalogues: seq<seq<Entry>>, limits: seq<Option<int>>)
    requires |limits| == |catalogues| > 0 && Shrinking(catalogues)
    ensures Exact(catalogues, limits, None)
    ensures |catalogues| > |catalogues[0]| ==> Finishes(catalogues, limits, None).Some?
  {
    FollowingIsExact(catalogues, limits, None);
    EntriesAhead(catalogues[0], None);
    if |catalogues| > |catalogues[0]| {
      FollowingEnds(catalogues, limits, None, |AfterCursor(catalogues[0], None)|);
    }
  }

  /** What each request finds to list. */
  function Catalogues(files: seq<seq<File>>, live: seq<seq<Live>>): seq<seq<Entry>>
    requires |live| == |files|
  {
    seq(|files|, k requires 0 <= k < |files| => Ordered(Merged(files[k], live[k])))
  }

  /** So it is for what is on disk and live at each request, as long as nothing is listed later that was not before. */
  lemma ListedPagingIsExact(files: seq<seq<File>>, live: seq<seq<Live>>, limits: seq<Option<int>>)
    requires |limits| == |live| == |files| > 0
    requires forall j, k, e :: 0 <= j <= k < |files| && Listed(files[k], live[k], e) ==> Listed(files[j], live[j], e)
    ensures var catalogues := Catalogues(files, live);
            Exact(catalogues, limits, None) && (|catalogues| > |catalogues[0]| ==> Finishes(catalogues, limits, None).Some?)
  {
    var catalogues := Catalogues(files, live);
    forall k | 0 <= k < |catalogues|
      ensures Sorted(catalogues[k]) && DistinctPaths(catalogues[k])
      ensures forall e :: e in catalogues[k] <==> Listed(files[k], live[k], e)
    {
      CatalogueIsSorted(files[k], live[k]);
    }
    PagingIsExact(catalogues, limits);
  }

  /** Over an unchanging catalogue the pages, put together, are the catalogue. */
  lemma UnchangedCatalogueIsReassembled(entries: seq<Entry>, limits: seq<Option<int>>)
    requires Sorted(entries) && DistinctPaths(entries) && |limits| > |entries|
    ensures Followed(seq(|limits|, _ => entries), limits, None) == entries
  {
    var catalogues := seq(|limits|, _ => entries);
    assert forall j, k :: 0 <= j <= k < |catalogues| ==> Within(catalogues[k], catalogues[j]);
    PagingIsExact(catalogues, limits);
    var visited := Followed(catalogues, limits, None);
    assert forall e :: e in entries ==> IsAfter(None, e);
    SortedUnique(visited, entries);
  }

  /** Two sorted sequences of the same entries are the same sequence. */
  lemma {:induction false} SortedUnique(a: seq<Entry>, b: seq<Entry>)
    requires Sorted(a) && Sorted(b) && forall e :: e in a <==> e in b
    ensures a == b
    decreases |a|
  {
    assert (a != [] ==> a[0] in b) && (b != [] ==> b[0] in a);
    if a != [] {
      HeadsEqual(a, b);
      forall e ensures e in a[1..] <==> e in b[1..] { SameTail(a, e); SameTail(b, e); }
      SortedUnique(a[1..], b[1..]);
      assert a == [a[0]] + a[1..] && b == [b[0]] + b[1..];
    }
  }

  lemma HeadsEqual(a: seq<Entry>, b: seq<Entry>)
    requires Sorted(a) && Sorted(b) && a != [] && b != [] && a[0] in b && b[0] in a
    ensures a[0] == b[0]
  {
    var i :| 0 <= i < |b| && b[i] == a[0];
    var j :| 0 <= j < |a| && a[j] == b[0];
    assert i > 0 ==> Precedes(b[0], b[i]);
    assert j > 0 ==> Precedes(a[0], a[j]);
  }

  lemma SameTail(a: seq<Entry>, e: Entry)
    requires Sorted(a) && a != []
    ensures e in a[1..] <==> e in a && e != a[0]
  {
    if e in a[1..] {
      var i :| 0 <= i < |a[1..]| && a[1..][i] == e;
      assert Precedes(a[0], a[i + 1]);
    }
    if e in a && e != a[0] {
      var i :| 0 <= i < |a| && a[i] == e;
      assert a[1..][i - 1] == e;
    }
  }

  /** The summaries returned by following cursors, page after page. */
  function Returned(catalogues: seq<seq<Entry>>, limits: seq<Option<int>>, cursor: Option<Cursor>): seq<Entry>
    requires |limits| == |catalogues|
    decreases |catalogues|
  {
    if catalogues == [] then []
    else match List(catalogues[0], limits[0], cursor)
         case InvalidParams => []
         case Listing(items, _, next) => if next.None? then items else items + Returned(catalogues[1..], limits[1..], next)
  }

  lemma {:induction false} SummariesConcat(a: seq<Entry>, b: seq<Entry>)
    ensures Summaries(a + b) == Summaries(a) + Summaries(b)
    decreases |a|
  {
    if a == [] {
      assert a + b == b;
    } else {
      SummariesConcat(a[1..], b);
      assert (a + b)[1..] == a[1..] + b;
    }
  }

  /** What is returned is what is visited, less the entries that no summary can be built for. */
  lemma {:induction false} ReturnedIsVisited(catalogues: seq<seq<Entry>>, limits: seq<Option<int>>, cursor: Option<Cursor>)
    requires |limits| == |catalogues|
    ensures Returned(catalogues, limits, cursor) == Summaries(Followed(catalogues, limits, cursor))
    decreases |catalogues|
  {
    if catalogues != [] {
      var l := List(catalogues[0], limits[0], cursor);
      if l.Listing? && l.nextCursor.Some? {
        ReturnedIsVisited(catalogues[1..], limits[1..], l.nextCursor);
        SummariesConcat(l.page, Followed(catalogues[1..], limits[1..], l.nextCursor));
      }
    }
  }
}

/** The listing in its own form. */
module SessionCatalogue {
  import opened Protocol
  import opened Spec = SessionCatalogueSpec

  /** Files first, then live state over them. */
  method Collect(files: seq<File>, live: seq<Live>) returns (entries: seq<Entry>)
    ensures entries == Spec.Merged(files, live) && DistinctPaths(entries)
  {
    entries := [];
    ghost var fs, ls := FileEntries(files), LiveEntries(live);
    assert fs[0..] == fs && ls[0..] == ls;
    for i := 0 to |files|
      invariant PutAll(entries, fs[i..]) == PutAll([], fs)
    {
      assert fs[i..][1..] == fs[i + 1..];
      entries := Put(entries, Entry(files[i].path, files[i].mtimeMs, files[i].readable));
    }
    for i := 0 to |live|
      invariant PutAll(entries, ls[i..]) == Merged(files, live)
    {
      assert ls[i..][1..] == ls[i + 1..];
      var mtime := if live[i].modified.Some? then live[i].modified.value else 0.0;
      entries := Put(entries, Entry(live[i].path, mtime, true));
    }
    CatalogueIsSorted(files, live);
  }

  method FindIndexOfPath(entries: seq<Entry>, path: Path) returns (index: int)
    ensures IndexOfPath(entries, path) == if index < 0 then None else Some(index)
  {
    assert entries[0..] == entries;
    for i := 0 to |entries|
      invariant forall j :: 0 <= j < i ==> entries[j].path != path
    {
      if entries[i].path == path {
        FirstIndexOfPath(entries, path, i);
        return i;
      }
    }
    IndexOfPathIs(entries, path);
    return -1;
  }

  lemma {:induction false} FirstIndexOfPath(entries: seq<Entry>, path: Path, i: nat)
    requires i < |entries| && entries[i].path == path && forall j :: 0 <= j < i ==> entries[j].path != path
    ensures IndexOfPath(entries, path) == Some(i)
    decreases |entries|
  {
    if i > 0 { FirstIndexOfPath(entries[1..], path, i - 1); }
  }

  predicate After(e: Entry, mtimeMs: real, path: Path) {
    e.mtimeMs < mtimeMs || (e.mtimeMs == mtimeMs && e.path > path)
  }

  method FindIndexAfter(entries: seq<Entry>, mtimeMs: real, path: Path) returns (index: int)
    ensures IndexAfter(entries, mtimeMs, path) == if index < 0 then None else Some(index)
  {
    for i := 0 to |entries|
      invariant forall j :: 0 <= j < i ==> !After(entries[j], mtimeMs, path)
    {
      if After(entries[i], mtimeMs, path) {
        FirstIndexAfter(entries, mtimeMs, path, i);
        return i;
      }
    }
    IndexAfterIs(entries, mtimeMs, path);
    return -1;
  }

  lemma {:induction false} FirstIndexAfter(entries: seq<Entry>, mtimeMs: real, path: Path, i: nat)
    requires i < |entries| && After(entries[i], mtimeMs, path)
    requires forall j :: 0 <= j < i ==> !After(entries[j], mtimeMs, path)
    ensures IndexAfter(entries, mtimeMs, path) == Some(i)
    decreases |entries|
  {
    if i > 0 { FirstIndexAfter(entries[1..], mtimeMs, path, i - 1); }
  }

  method FindStart(ordered: seq<Entry>, cursor: Option<Cursor>) returns (start: Option<nat>)
    requires cursor.Some? ==> cursor.value.Issued?
    ensures start == StartOf(ordered, cursor)
  {
    if cursor.None? {
      return Some(0);
    }
    var index := FindIndexOfPath(ordered, cursor.value.path);
    if index >= 0 {
      return Some(index + 1);
    }
    index := FindIndexAfter(ordered, cursor.value.mtimeMs, cursor.value.path);
    return if index < 0 then None else Some(index);
  }

  method Summarise(page: seq<Entry>) returns (items: seq<Entry>)
    ensures items == Summaries(page)
  {
    items := [];
    assert page[0..] == page;
    for i := 0 to |page|
      invariant Summaries(page) == items + Summaries(page[i..])
    {
      assert page[i..][1..] == page[i + 1..];
      var before := items;
      if page[i].summary {
        items := items + [page[i]];
      }
      assert items + Summaries(page[i + 1..]) == before + Summaries(page[i..]);
    }
  }

  /** One page of what is on disk and live, sorted as it is read. */
  method List(files: seq<File>, live: seq<Live>, limit: Option<int>, cursor: Option<Cursor>) returns (listing: Listing)
    ensures listing == Spec.List(Ordered(Merged(files, live)), limit, cursor)
  {
    var pageSize := PageSize(limit);
    var entries := Collect(files, live);
    var ordered := Ordered(entries);
    if cursor.Some? && cursor.value.Unrecognised? {
      return InvalidParams;
    }
    var start := FindStart(ordered, cursor);
    if start.None? {
      return Listing([], [], None);
    }
    listing := ListFrom(ordered, start.value, pageSize);
  }

  method ListFrom(ordered: seq<Entry>, start: nat, pageSize: nat) returns (listing: Listing)
    requires start <= |ordered|
    ensures listing == Spec.ListFrom(ordered, start, pageSize)
  {
    var page := ordered[start..Min(start + pageSize, |ordered|)];
    var items := Summarise(page);
    var hasMore := start + |page| < |ordered|;
    listing := Listing(items, page,
      if hasMore && page != [] then Some(Issued(page[|page| - 1].path, page[|page| - 1].mtimeMs)) else None);
  }
}
