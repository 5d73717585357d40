/** Cursor paging over an explicit set of streams, under a boundary frozen by the first page. */
module ReadEventsPage {
  import opened Options
  import opened Sequences
  import opened Decimals
  import opened EventTable
  import opened Enumeration
  import opened StableSort

  const MAX_READ_EVENTS_PAGE_LIMIT := 1000

  datatype Order = Asc | Desc

  /** A pg_snapshot: transaction ids from xmax on, and those listed, had not committed. */
  datatype Snapshot = Snapshot(xmax: nat, running: set<nat>)

  /** pg_visible_in_snapshot. */
  predicate VisibleIn(xid: nat, snapshot: Snapshot) {
    xid < snapshot.xmax && xid !in snapshot.running
  }

  datatype Boundary = Boundary(watermark: nat, snapshot: Snapshot)

  datatype Cursor = Cursor(
    order: Order, streamIds: seq<string>, boundary: Boundary, position: nat, stream: string, eventId: string)

  datatype PageRequest = PageRequest(streamIds: seq<string>, order: Order, limit: nat, cursor: Option<Cursor>)

  /** A page lists the sort keys of its rows; the key names the row. */
  datatype Page = Page(keys: seq<int>, hasNextPage: bool, next: Option<Cursor>)

  /** The database's text order; nothing is assumed but that no text precedes itself. */
  type Collation = (string, string) -> bool

  ghost predicate Irreflexive(lt: Collation) {
    forall x :: !lt(x, x)
  }

  /** `${streamId}/${version}`. */
  function EventId(row: Row): string {
    row.stream + "/" + Decimal(row.version)
  }

  /** Sorting by Key ascending is ORDER BY global_position in the requested direction. */
  function Key(order: Order, position: nat): int {
    if order == Asc then position else 0 - position
  }

  function PositionOf(order: Order, key: int): int {
    if order == Asc then key else 0 - key
  }

  /** (global_position, stream_id, id) > or < the cursor's tuple. */
  predicate TupleAfter(lt: Collation, order: Order, position: nat, row: Row, c: Cursor) {
    if order == Asc then
      c.position < position ||
      (c.position == position &&
       (lt(c.stream, row.stream) || (c.stream == row.stream && lt(c.eventId, EventId(row)))))
    else
      position < c.position ||
      (position == c.position &&
       (lt(row.stream, c.stream) || (row.stream == c.stream && lt(EventId(row), c.eventId))))
  }

  /** The WHERE clause of the lateral subquery. */
  predicate Selected(lt: Collation, order: Order, b: Boundary, cursor: Option<Cursor>, stream: string,
                     position: nat, row: Row) {
    row.stream == stream && position <= b.watermark && VisibleIn(row.xid, b.snapshot) &&
    (cursor.Some? ==> TupleAfter(lt, order, position, row, cursor.value))
  }

  function StreamKeys(lt: Collation, t: Table, order: Order, b: Boundary, cursor: Option<Cursor>, stream: string):
    set<int>
  {
    set p | p in t && Selected(lt, order, b, cursor, stream, p, t[p]) :: Key(order, p)
  }

  function Parts(lt: Collation, t: Table, order: Order, b: Boundary, cursor: Option<Cursor>, streamIds: seq<string>):
    seq<set<int>>
  {
    seq(|streamIds|, i requires 0 <= i < |streamIds| => StreamKeys(lt, t, order, b, cursor, streamIds[i]))
  }

  /** Every key lies in (Lowest, Highest]. */
  function Lowest(b: Boundary): int {
    0 - b.watermark - 1
  }

  function Highest(b: Boundary): int {
    b.watermark
  }

  /** buildReadEventsPageQuery: LIMIT per stream, then ORDER BY and LIMIT over the union. */
  function QueryRows(lt: Collation, t: Table, order: Order, b: Boundary, cursor: Option<Cursor>,
                     streamIds: seq<string>, limit: nat): seq<int> {
    var union := UnionOfTops(Parts(lt, t, order, b, cursor, streamIds), Lowest(b), Highest(b), limit + 1);
    Take(Enum(union, Lowest(b), Highest(b)), limit + 1)
  }

  /** splitReadEventsPageRows and buildNextReadEventsCursor. */
  function PageFrom(cmp: Compare, t: Table, order: Order, b: Boundary, streamIds: seq<string>, limit: nat, rows: seq<int>): Page {
    var pageRows := Take(rows, limit);
    var hasNextPage := |rows| > limit;
    var last := if pageRows == [] then 0 else PositionOf(order, pageRows[|pageRows| - 1]);
    if !hasNextPage || pageRows == [] || last < 0 || last !in t then Page(pageRows, hasNextPage, None)
    else Page(pageRows, hasNextPage, Some(Cursor(order, Sorted(cmp, streamIds), b, last, t[last].stream, EventId(t[last]))))
  }

  /** sameStreamSet: the copies sorted with localeCompare are equal, element by element. */
  predicate SameStreamSet(cmp: Compare, left: seq<string>, right: seq<string>) {
    |left| == |right| && Sorted(cmp, left) == Sorted(cmp, right)
  }

  predicate ValidRequest(r: PageRequest) {
    NoDuplicates(r.streamIds) && 0 < r.limit <= MAX_READ_EVENTS_PAGE_LIMIT
  }

  /** readEventsPage; `captured` is the boundary a request without a cursor captures. */
  function ReadPage(cmp: Compare, lt: Collation, t: Table, r: PageRequest, captured: Boundary): Result<Page> {
    if !ValidRequest(r) then Error("invalid argument")
    else if r.cursor.Some? && (r.cursor.value.order != r.order || !SameStreamSet(cmp, r.cursor.value.streamIds, r.streamIds))
    then Error("cursor does not match streamIds and order")
    else if r.streamIds == [] then Ok(Page([], false, None))
    else
      var b := if r.cursor.Some? then r.cursor.value.boundary else captured;
      Ok(PageFrom(cmp, t, r.order, b, r.streamIds, r.limit, QueryRows(lt, t, r.order, b, r.cursor, r.streamIds, r.limit)))
  }

  // ---- The frozen list ----

  predicate InBoundary(b: Boundary, streamIds: seq<string>, position: nat, row: Row) {
    row.stream in streamIds && position <= b.watermark && VisibleIn(row.xid, b.snapshot)
  }

  /** The keys of the visible events of the streams. */
  function FrozenKeys(t: Table, order: Order, b: Boundary, streamIds: seq<string>): set<int> {
    set p | p in t && InBoundary(b, streamIds, p, t[p]) :: Key(order, p)
  }

  /** The sorted visible events the pages have to partition. */
  function FrozenList(t: Table, order: Order, b: Boundary, streamIds: seq<string>): seq<int> {
    Enum(FrozenKeys(t, order, b, streamIds), Lowest(b), Highest(b))
  }

  /** The cursor names a visible row of the table. */
  predicate CursorOf(cmp: Compare, t: Table, order: Order, b: Boundary, streamIds: seq<string>, c: Cursor) {
    && c.order == order && c.boundary == b && SameStreamSet(cmp, c.streamIds, streamIds)
    && c.position in t && InBoundary(b, streamIds, c.position, t[c.position])
    && c.stream == t[c.position].stream && c.eventId == EventId(t[c.position])
  }

  /** Where a page starts, as an exclusive lower key. */
  function StartKey(b: Boundary, cursor: Option<Cursor>): int {
    if cursor.None? then Lowest(b) else Key(cursor.value.order, cursor.value.position)
  }

  /** Positions are unique, so the tuple comparison is a comparison of positions. */
  lemma TupleAfterIsKeyOrder(cmp: Compare, lt: Collation, t: Table, order: Order, b: Boundary, streamIds: seq<string>,
                             c: Cursor, position: nat)
    requires Irreflexive(lt) && CursorOf(cmp, t, order, b, streamIds, c) && position in t
    ensures TupleAfter(lt, order, position, t[position], c) <==> Key(order, c.position) < Key(order, position)
  {
  }

  lemma StartInRange(cmp: Compare, t: Table, order: Order, b: Boundary, cursor: Option<Cursor>, streamIds: seq<string>)
    requires cursor.Some? ==> CursorOf(cmp, t, order, b, streamIds, cursor.value)
    ensures Lowest(b) <= StartKey(b, cursor) <= Highest(b)
  {
  }

  /** One page is the next slice of the frozen list: the per-stream limits lose nothing. */
  lemma QueryIsNextSlice(cmp: Compare, lt: Collation, t: Table, order: Order, b: Boundary, cursor: Option<Cursor>,
                         streamIds: seq<string>, limit: nat)
    requires Irreflexive(lt)
    requires cursor.Some? ==> CursorOf(cmp, t, order, b, streamIds, cursor.value)
    ensures QueryRows(lt, t, order, b, cursor, streamIds, limit)
         == Take(Enum(FrozenKeys(t, order, b, streamIds), StartKey(b, cursor), Highest(b)), limit + 1)
  {
    StartInRange(cmp, t, order, b, cursor, streamIds);
    PartsCover(cmp, lt, t, order, b, cursor, streamIds);
    hide FrozenKeys, Parts, UnionOfTops, Lowest, Highest, StartKey, CursorOf, Enum, Take, Covers;
    var lo, start, hi := Lowest(b), StartKey(b, cursor), Highest(b);
    var visible := FrozenKeys(t, order, b, streamIds);
    var ahead := set x | x in visible && x > start;
    var parts := Parts(lt, t, order, b, cursor, streamIds);
    TopKPushdown(parts, ahead, lo, hi, limit + 1);
    EnumAhead(visible, lo, start, hi);
  }

  lemma EnumAhead(s: set<int>, lo: int, start: int, hi: int)
    requires lo <= start <= hi
    ensures Enum((set x | x in s && x > start), lo, hi) == Enum(s, start, hi)
  {
    hide Enum;
    var ahead := set x | x in s && x > start;
    EnumSplit(ahead, lo, start, hi);
    EnumFrame(ahead, {}, lo, start);
    EnumEmpty(lo, start);
    EnumFrame(ahead, s, start, hi);
  }

  lemma {:induction false} EnumEmpty(lo: int, hi: int)
    ensures Enum({}, lo, hi) == []
    decreases hi - lo
  {
    if hi > lo {
      EnumEmpty(lo, hi - 1);
    }
  }

  lemma PartsCover(cmp: Compare, lt: Collation, t: Table, order: Order, b: Boundary, cursor: Option<Cursor>, streamIds: seq<string>)
    requires Irreflexive(lt)
    requires cursor.Some? ==> CursorOf(cmp, t, order, b, streamIds, cursor.value)
    ensures var ahead := set x | x in FrozenKeys(t, order, b, streamIds) && x > StartKey(b, cursor);
            Covers(Parts(lt, t, order, b, cursor, streamIds), ahead)
  {
    var visible := FrozenKeys(t, order, b, streamIds);
    var ahead := set x | x in visible && x > StartKey(b, cursor);
    var parts := Parts(lt, t, order, b, cursor, streamIds);
    forall p, stream | p in t && stream in streamIds
      ensures Selected(lt, order, b, cursor, stream, p, t[p]) <==>
              InBoundary(b, streamIds, p, t[p]) && t[p].stream == stream && Key(order, p) > StartKey(b, cursor)
    {
      if cursor.Some? {
        TupleAfterIsKeyOrder(cmp, lt, t, order, b, streamIds, cursor.value, p);
      }
    }
    forall i | 0 <= i < |parts| ensures parts[i] <= ahead {
      assert streamIds[i] in streamIds;
    }
    forall x | x in ahead ensures exists i :: 0 <= i < |parts| && x in parts[i] {
      var p :| p in t && InBoundary(b, streamIds, p, t[p]) && Key(order, p) == x;
      var i :| 0 <= i < |streamIds| && streamIds[i] == t[p].stream;
      assert x in parts[i];
    }
  }

  // ---- Reordered requests ----

  /** A cursor of these streams is accepted with them in any order. */
  ghost predicate EveryOrderAccepted(cmp: Compare, streamIds: seq<string>) {
    forall other: seq<string> :: multiset(other) == multiset(streamIds) ==> SameStreamSet(cmp, streamIds, other)
  }

  /** Every reordering of the streams is accepted with a cursor if and only if localeCompare
      tells the stream ids apart. */
  lemma ReorderingsAccepted(cmp: Compare, streamIds: seq<string>)
    requires Consistent(cmp) && NoDuplicates(streamIds)
    ensures EveryOrderAccepted(cmp, streamIds) <==> Separates(cmp, streamIds)
  {
    SameSortedCopy(cmp, streamIds);
    hide Sorted, Consistent, Separates;
    if OneSortedCopy(cmp, streamIds) {
      forall other: seq<string> | multiset(other) == multiset(streamIds) ensures SameStreamSet(cmp, streamIds, other) {
        SameMultiset(other, streamIds);
      }
    } else {
      var other :| multiset(other) == multiset(streamIds) && Sorted(cmp, other) != Sorted(cmp, streamIds);
      assert !SameStreamSet(cmp, streamIds, other);
    }
  }

  /** What is accepted: a valid request whose cursor, if any, is of its order and streams. */
  lemma AcceptedWhen(cmp: Compare, lt: Collation, t: Table, r: PageRequest, b: Boundary)
    ensures ReadPage(cmp, lt, t, r, b).Ok? <==>
            ValidRequest(r) &&
            (r.cursor.Some? ==> r.cursor.value.order == r.order && SameStreamSet(cmp, r.cursor.value.streamIds, r.streamIds))
  {
    hide QueryRows, PageFrom, SameStreamSet;
  }

  /** Two distinct ids that compare equal, such as canonically equivalent spellings: the cursor
      of a page read in one order is refused with the other. */
  lemma EqualIdsRefused(cmp: Compare, lt: Collation, t: Table, b: Boundary, c: Cursor, first: string, second: string, limit: nat)
    requires Consistent(cmp) && first != second && cmp(first, second) == 0 && 0 < limit <= MAX_READ_EVENTS_PAGE_LIMIT
    requires c.order == Asc && c.streamIds == Sorted(cmp, [first, second])
    ensures ReadPage(cmp, lt, t, PageRequest([first, second], Asc, limit, Some(c)), b).Ok?
    ensures ReadPage(cmp, lt, t, PageRequest([second, first], Asc, limit, Some(c)), b).Error?
  {
    var ids := [first, second];
    SortedTwice(cmp, ids);
    SortedMembers(cmp, ids);
    EqualElementsShow(cmp, ids, 0, 1);
    assert Exchanged(ids, 0, 1) == [second, first];
    hide Sorted, Consistent, Exchanged, ReadPage;
    AcceptedWhen(cmp, lt, t, PageRequest([first, second], Asc, limit, Some(c)), b);
    AcceptedWhen(cmp, lt, t, PageRequest([second, first], Asc, limit, Some(c)), b);
  }

  // ---- Following cursors ----

  /** What the database holds and the boundary it would capture, and what the caller asks for, when
      a page is fetched. */
  datatype Fetch = Fetch(table: Table, captured: Boundary, streamIds: seq<string>, limit: nat)

  /** Following nextCursor over a list of fetches: the keys read and whether the end was reached. */
  function Follow(cmp: Compare, lt: Collation, order: Order, fetches: seq<Fetch>, cursor: Option<Cursor>):
    (seq<int>, bool)
  {
    if fetches == [] then ([], false)
    else
      var f := fetches[0];
      var answer := ReadPage(cmp, lt, f.table, PageRequest(f.streamIds, order, f.limit, cursor), f.captured);
      if answer.Error? then ([], false)
      else if answer.value.next.None? then (answer.value.keys, true)
      else
        var rest := Follow(cmp, lt, order, fetches[1..], answer.value.next);
        (answer.value.keys + rest.0, rest.1)
  }

  /** A fetch of the same streams, in any order and with any valid limit, from a table that
      shows the boundary the same events. */
  ghost predicate SamePages(cmp: Compare, base: Table, order: Order, b: Boundary, streamIds: seq<string>, f: Fetch) {
    && ValidRequest(PageRequest(f.streamIds, order, f.limit, None))
    && SameStreamSet(cmp, f.streamIds, streamIds)
    && (forall p :: p in base ==> p in f.table && f.table[p] == base[p])
    && FrozenKeys(f.table, order, b, streamIds) == FrozenKeys(base, order, b, streamIds)
  }

  lemma SameStreams(cmp: Compare, left: seq<string>, right: seq<string>)
    requires SameStreamSet(cmp, left, right)
    ensures forall x :: x in left <==> x in right
    ensures |left| == |right|
  {
    SortedMembers(cmp, left);
    SortedMembers(cmp, right);
  }

  lemma SameStreamsSameKeys(cmp: Compare, t: Table, order: Order, b: Boundary, left: seq<string>, right: seq<string>)
    requires SameStreamSet(cmp, left, right)
    ensures FrozenKeys(t, order, b, left) == FrozenKeys(t, order, b, right)
  {
    SameStreams(cmp, left, right);
  }

  /** A cursor into the base table is a cursor into every later table. */
  lemma CursorTransfers(cmp: Compare, base: Table, order: Order, b: Boundary, streamIds: seq<string>, f: Fetch, c: Cursor)
    requires SamePages(cmp, base, order, b, streamIds, f) && CursorOf(cmp, base, order, b, streamIds, c)
    ensures CursorOf(cmp, f.table, order, b, f.streamIds, c)
  {
    SameStreams(cmp, f.streamIds, streamIds);
  }

  lemma SortedCopyIsSame(cmp: Compare, ids: seq<string>, streamIds: seq<string>)
    requires Consistent(cmp) && SameStreamSet(cmp, ids, streamIds)
    ensures SameStreamSet(cmp, Sorted(cmp, ids), streamIds)
  {
    SortedTwice(cmp, ids);
    SortedMembers(cmp, ids);
  }

  /** The cursor built from a visible key names its row. */
  lemma NextCursorOk(cmp: Compare, base: Table, order: Order, b: Boundary, streamIds: seq<string>, f: Fetch, rows: seq<int>)
    requires Consistent(cmp) && SamePages(cmp, base, order, b, streamIds, f) && |rows| > f.limit
    requires rows[f.limit - 1] in FrozenKeys(base, order, b, streamIds)
    ensures var next := PageFrom(cmp, f.table, order, b, f.streamIds, f.limit, rows).next;
            next.Some? && CursorOf(cmp, base, order, b, streamIds, next.value) &&
            StartKey(b, next) == rows[f.limit - 1]
  {
    SortedCopyIsSame(cmp, f.streamIds, streamIds);
    hide SameStreamSet, Sorted, Consistent;
    var x := rows[f.limit - 1];
    var p :| p in base && InBoundary(b, streamIds, p, base[p]) && Key(order, p) == x;
    assert Take(rows, f.limit)[f.limit - 1] == x;
  }

  /** One page of a fetch: the next limit keys of the frozen list, and a cursor to the rest.  Only a
      fetch without a cursor captures the boundary; with one, whatever could be captured now does
      not matter. */
  lemma PageIsNextSlice(cmp: Compare, lt: Collation, base: Table, order: Order, b: Boundary, streamIds: seq<string>,
                        f: Fetch, cursor: Option<Cursor>)
    requires Consistent(cmp) && Irreflexive(lt) && streamIds != [] && SamePages(cmp, base, order, b, streamIds, f)
    requires if cursor.Some? then CursorOf(cmp, base, order, b, streamIds, cursor.value) else f.captured == b
    ensures var answer := ReadPage(cmp, lt, f.table, PageRequest(f.streamIds, order, f.limit, cursor), f.captured);
            var ahead := Enum(FrozenKeys(base, order, b, streamIds), StartKey(b, cursor), Highest(b));
            answer.Ok? && answer.value.keys == Take(ahead, f.limit) &&
            answer.value.hasNextPage == (|ahead| > f.limit) &&
            (answer.value.hasNextPage <==> answer.value.next.Some?) &&
            (answer.value.next.Some? ==>
               CursorOf(cmp, base, order, b, streamIds, answer.value.next.value) &&
               StartKey(b, answer.value.next) == ahead[f.limit - 1])
  {
    var ahead := Enum(FrozenKeys(base, order, b, streamIds), StartKey(b, cursor), Highest(b));
    SameStreamsSameKeys(cmp, f.table, order, b, f.streamIds, streamIds);
    SameStreams(cmp, f.streamIds, streamIds);
    if cursor.Some? {
      CursorTransfers(cmp, base, order, b, streamIds, f, cursor.value);
    }
    QueryIsNextSlice(cmp, lt, f.table, order, b, cursor, f.streamIds, f.limit);
    EnumMembers(FrozenKeys(base, order, b, streamIds), StartKey(b, cursor), Highest(b));
    hide FrozenKeys, Enum, QueryRows, Highest, CursorOf, Sorted, Consistent;
    var rows := QueryRows(lt, f.table, order, b, cursor, f.streamIds, f.limit);
    if |ahead| > f.limit {
      assert rows == Take(ahead, f.limit + 1);
      assert rows[f.limit - 1] == ahead[f.limit - 1];
      assert ahead[f.limit - 1] in ahead;
      NextCursorOk(cmp, base, order, b, streamIds, f, rows);
    }
    hide StartKey;
  }

  /** Paging partitions the list frozen by the first fetch.  Whatever is committed between pages,
      whatever boundary the later fetches could capture, however the stream set is reordered and
      the limit changed: the pages read concatenate to a prefix of the frozen list, to all of it
      once nextCursor is null, and as many fetches as there are events always reach the end. */
  lemma {:induction false} PagingPartitions(cmp: Compare, lt: Collation, base: Table, order: Order, b: Boundary,
                                            streamIds: seq<string>, fetches: seq<Fetch>, cursor: Option<Cursor>)
    requires Consistent(cmp) && Irreflexive(lt) && streamIds != []
    requires forall i :: 0 <= i < |fetches| ==> SamePages(cmp, base, order, b, streamIds, fetches[i])
    requires if cursor.Some? then CursorOf(cmp, base, order, b, streamIds, cursor.value)
             else fetches != [] ==> fetches[0].captured == b
    ensures var (keys, finished) := Follow(cmp, lt, order, fetches, cursor);
            var ahead := Enum(FrozenKeys(base, order, b, streamIds), StartKey(b, cursor), Highest(b));
            keys <= ahead && (finished ==> keys == ahead) &&
            (!finished ==> |fetches| <= |keys| && (fetches != [] ==> |keys| < |ahead|))
  {
    hide ReadPage, FrozenKeys, Enum, Highest, CursorOf, StartKey, Irreflexive, InBoundary, Consistent;
    if fetches != [] {
      var f, visible := fetches[0], FrozenKeys(base, order, b, streamIds);
      var ahead := Enum(visible, StartKey(b, cursor), Highest(b));
      PageIsNextSlice(cmp, lt, base, order, b, streamIds, f, cursor);
      var page := ReadPage(cmp, lt, f.table, PageRequest(f.streamIds, order, f.limit, cursor), f.captured).value;
      if page.next.Some? {
        PagingPartitions(cmp, lt, base, order, b, streamIds, fetches[1..], page.next);
        EnumPrefix(visible, StartKey(b, cursor), Highest(b), f.limit);
        assert ahead == page.keys + Enum(visible, StartKey(b, page.next), Highest(b));
      }
    }
  }
}
