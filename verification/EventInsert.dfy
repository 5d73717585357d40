/** Inserting prepared rows in chunks: numbered placeholders over one flat parameter list,
    at most 65535 parameters in a statement. */
module EventInsert {
  import opened Options
  import opened Sequences

  const PG_MAX_PARAMS := 65535
  const PARAMS_PER_EVENT := 14
  const MAX_EVENTS_PER_CHUNK := PG_MAX_PARAMS / PARAMS_PER_EVENT

  datatype Value = Number(n: int) | Text(s: string) | Null

  datatype PreparedRow = PreparedRow(version: nat, id: string, source: string, specversion: string, eventType: string,
                                     subject: string, time: string, datacontenttype: string, dataJson: string,
                                     extensionsJson: string, encryptedDataJson: Option<string>,
                                     cryptoKeyId: Option<string>, schemaVersion: int)

  /** The columns of the events table that the statement names, in its order. */
  datatype Column =
    | StreamId | StreamVersion | Id | Source | Specversion | EventType | Subject | Time
    | Datacontenttype | Data | Extensions | EncryptedData | CryptoKeyId | SchemaVersion

  const COLUMNS: seq<Column> :=
    [StreamId, StreamVersion, Id, Source, Specversion, EventType, Subject, Time,
     Datacontenttype, Data, Extensions, EncryptedData, CryptoKeyId, SchemaVersion]

  function Nullable(text: Option<string>): Value {
    if text.Some? then Text(text.value) else Null
  }

  /** What each column of a stored event is to hold. */
  function ColumnValue(streamId: string, row: PreparedRow, column: Column): Value {
    match column
    case StreamId => Text(streamId)
    case StreamVersion => Number(row.version)
    case Id => Text(row.id)
    case Source => Text(row.source)
    case Specversion => Text(row.specversion)
    case EventType => Text(row.eventType)
    case Subject => Text(row.subject)
    case Time => Text(row.time)
    case Datacontenttype => Text(row.datacontenttype)
    case Data => Text(row.dataJson)
    case Extensions => Text(row.extensionsJson)
    case EncryptedData => Nullable(row.encryptedDataJson)
    case CryptoKeyId => Nullable(row.cryptoKeyId)
    case SchemaVersion => Number(row.schemaVersion)
  }

  type Stored = Column -> Value

  /** The row holds the prepared row of this stream. */
  ghost predicate Holds(stored: Stored, streamId: string, row: PreparedRow) {
    forall column :: stored(column) == ColumnValue(streamId, row, column)
  }

  type Placeholders = seq<nat>

  /** A statement PostgreSQL accepts: the placeholders of every row name parameters, $1 the
      first, and there are not too many. */
  predicate Bindable(placeholders: seq<Placeholders>, params: seq<Value>) {
    0 < |params| <= PG_MAX_PARAMS &&
    forall i :: 0 <= i < |placeholders| ==>
      |placeholders[i]| == PARAMS_PER_EVENT && forall c :: 0 <= c < PARAMS_PER_EVENT ==> 1 <= placeholders[i][c] <= |params|
  }

  function IndexOf(column: Column): (i: nat)
    ensures i < PARAMS_PER_EVENT && COLUMNS[i] == column
  {
    match column
    case StreamId => 0 case StreamVersion => 1 case Id => 2 case Source => 3 case Specversion => 4
    case EventType => 5 case Subject => 6 case Time => 7 case Datacontenttype => 8 case Data => 9
    case Extensions => 10 case EncryptedData => 11 case CryptoKeyId => 12 case SchemaVersion => 13
  }

  /** The row a VALUES tuple stands for. */
  function Bound(tuple: Placeholders, params: seq<Value>): Stored
    requires |tuple| == PARAMS_PER_EVENT && forall c :: 0 <= c < PARAMS_PER_EVENT ==> 1 <= tuple[c] <= |params|
  {
    (column: Column) => params[tuple[IndexOf(column)] - 1]
  }

  /** The values of one row, in the order they are pushed. */
  function Values(streamId: string, row: PreparedRow): (values: seq<Value>)
    ensures |values| == PARAMS_PER_EVENT
    ensures forall c :: 0 <= c < PARAMS_PER_EVENT ==> values[c] == ColumnValue(streamId, row, COLUMNS[c])
  {
    [Text(streamId), Number(row.version), Text(row.id), Text(row.source), Text(row.specversion), Text(row.eventType),
     Text(row.subject), Text(row.time), Text(row.datacontenttype), Text(row.dataJson), Text(row.extensionsJson),
     Nullable(row.encryptedDataJson), Nullable(row.cryptoKeyId), Number(row.schemaVersion)]
  }

  /** buildChunkQuery: bound to its parameters, tuple i is the i-th row of the chunk. */
  method BuildChunkQuery(chunk: seq<PreparedRow>, streamId: string)
    returns (placeholders: seq<Placeholders>, params: seq<Value>)
    requires 0 < |chunk| <= MAX_EVENTS_PER_CHUNK
    ensures |placeholders| == |chunk| && Bindable(placeholders, params)
    ensures forall i :: 0 <= i < |chunk| ==> Holds(Bound(placeholders[i], params), streamId, chunk[i])
  {
    hide Values, ColumnValue;
    placeholders, params := [], [];
    var paramIdx := 1;
    for r := 0 to |chunk|
      invariant |params| == PARAMS_PER_EVENT * r && paramIdx == |params| + 1 && |placeholders| == r
      invariant forall i :: 0 <= i < r ==> placeholders[i] == Numbered(PARAMS_PER_EVENT * i + 1)
      invariant forall i :: 0 <= i < r ==> Slice(params, i) == Values(streamId, chunk[i])
    {
      var row := chunk[r];
      ghost var before := params;
      placeholders := placeholders + [Numbered(paramIdx)];
      params := params + Values(streamId, row);
      forall i | 0 <= i <= r ensures Slice(params, i) == Values(streamId, chunk[i]) {
        assert i < r ==> Slice(params, i) == Slice(before, i);
      }
      paramIdx := paramIdx + PARAMS_PER_EVENT;
    }
    forall i | 0 <= i < |chunk| ensures Holds(Bound(placeholders[i], params), streamId, chunk[i]) {
      SliceHolds(streamId, chunk[i], params, i);
    }
  }

  /** PARAMS_PER_EVENT placeholders from the given number on. */
  function Numbered(first: nat): (tuple: Placeholders)
    ensures |tuple| == PARAMS_PER_EVENT && forall c :: 0 <= c < PARAMS_PER_EVENT ==> tuple[c] == first + c
  {
    seq(PARAMS_PER_EVENT, c requires 0 <= c => first + c)
  }

  function Slice(params: seq<Value>, i: nat): seq<Value> {
    if PARAMS_PER_EVENT * (i + 1) <= |params| then params[PARAMS_PER_EVENT * i..PARAMS_PER_EVENT * (i + 1)] else []
  }

  lemma SliceHolds(streamId: string, row: PreparedRow, params: seq<Value>, i: nat)
    requires PARAMS_PER_EVENT * (i + 1) <= |params| && Slice(params, i) == Values(streamId, row)
    ensures Holds(Bound(Numbered(PARAMS_PER_EVENT * i + 1), params), streamId, row)
  {
    hide Values, ColumnValue;
    forall column ensures Bound(Numbered(PARAMS_PER_EVENT * i + 1), params)(column) == ColumnValue(streamId, row, column) {
      assert Slice(params, i)[IndexOf(column)] == params[PARAMS_PER_EVENT * i + IndexOf(column)];
    }
  }

  /** The events table as the inserting transaction sees it: its rows with the positions the
      identity column gave them.  Other writers take positions meanwhile. */
  class EventsTable {
    var rows: seq<(nat, Stored)>
    var counter: nat

    constructor ()
      ensures rows == [] && counter == 0
    {
      rows, counter := [], 0;
    }

    /** INSERT ... VALUES ... RETURNING global_position. */
    method Insert(placeholders: seq<Placeholders>, params: seq<Value>) returns (positions: seq<nat>)
      requires Bindable(placeholders, params)
      modifies this
      ensures |positions| == |placeholders| && Ascending(positions) && old(counter) <= counter
      ensures forall i :: 0 <= i < |positions| ==> old(counter) < positions[i] <= counter
      ensures rows == old(rows) + seq(|positions|, i requires 0 <= i < |positions| => (positions[i], Bound(placeholders[i], params)))
    {
      positions := [];
      for r := 0 to |placeholders|
        invariant |positions| == r && Ascending(positions) && old(counter) <= counter
        invariant forall i :: 0 <= i < r ==> old(counter) < positions[i] <= counter
        invariant rows == old(rows) + seq(r, i requires 0 <= i < r => (positions[i], Bound(placeholders[i], params)))
      {
        var takenByOthers :| 0 <= takenByOthers;
        counter := counter + takenByOthers + 1;
        positions := positions + [counter];
        rows := rows + [(counter, Bound(placeholders[r], params))];
      }
    }
  }

  /** The table gained the prepared rows, in order, at these positions. */
  ghost predicate Inserted(before: seq<(nat, Stored)>, after: seq<(nat, Stored)>, streamId: string,
                           preparedRows: seq<PreparedRow>, positions: seq<nat>) {
    && |positions| == |preparedRows| && |after| == |before| + |preparedRows| && after[..|before|] == before
    && Ascending(positions)
    && forall i :: 0 <= i < |preparedRows| ==>
         after[|before| + i].0 == positions[i] && Holds(after[|before| + i].1, streamId, preparedRows[i])
  }

  /** insertEventChunks: as if all rows went in with one statement. */
  method InsertEventChunks(table: EventsTable, streamId: string, preparedRows: seq<PreparedRow>)
    returns (globalPositions: seq<nat>)
    modifies table
    ensures Inserted(old(table.rows), table.rows, streamId, preparedRows, globalPositions)
    ensures old(table.counter) <= table.counter
    ensures forall i :: 0 <= i < |globalPositions| ==> old(table.counter) < globalPositions[i] <= table.counter
  {
    hide Inserted, Bindable, Holds, Take, Bound, Ascending;
    TakeEnds(preparedRows);
    globalPositions := [];
    var chunkStart := 0;
    NothingInserted(table.rows, streamId);
    while chunkStart < |preparedRows|
      invariant 0 <= chunkStart
      invariant old(table.counter) <= table.counter
      invariant forall i :: 0 <= i < |globalPositions| ==> old(table.counter) < globalPositions[i] <= table.counter
      invariant Inserted(old(table.rows), table.rows, streamId, Take(preparedRows, chunkStart), globalPositions)
    {
      var chunk := Take(preparedRows[chunkStart..], MAX_EVENTS_PER_CHUNK);
      TakeMore(preparedRows, chunkStart, MAX_EVENTS_PER_CHUNK);
      var placeholders, params := BuildChunkQuery(chunk, streamId);
      ghost var before := table.rows;
      var positions := table.Insert(placeholders, params);
      InsertedChunk(before, table.rows, streamId, chunk, placeholders, params, positions);
      InsertedMore(old(table.rows), before, table.rows, streamId, Take(preparedRows, chunkStart), chunk,
                   globalPositions, positions);
      globalPositions := globalPositions + positions;
      chunkStart := chunkStart + MAX_EVENTS_PER_CHUNK;
    }
  }

  lemma TakeMore<T>(s: seq<T>, k: nat, w: nat)
    requires k < |s| && 0 < w
    ensures 0 < |Take(s[k..], w)| <= w
    ensures Take(s, k) + Take(s[k..], w) == Take(s, k + w)
  {
  }

  lemma TakeEnds<T>(s: seq<T>)
    ensures Take(s, 0) == [] && forall k: nat :: k >= |s| ==> Take(s, k) == s
  {
  }

  lemma NothingInserted(rows: seq<(nat, Stored)>, streamId: string)
    ensures Inserted(rows, rows, streamId, [], [])
  {
  }

  lemma InsertedChunk(before: seq<(nat, Stored)>, after: seq<(nat, Stored)>, streamId: string, chunk: seq<PreparedRow>,
                      placeholders: seq<Placeholders>, params: seq<Value>, positions: seq<nat>)
    requires |placeholders| == |chunk| == |positions| && Bindable(placeholders, params) && Ascending(positions)
    requires forall i :: 0 <= i < |chunk| ==> Holds(Bound(placeholders[i], params), streamId, chunk[i])
    requires after == before + seq(|positions|, i requires 0 <= i < |positions| => (positions[i], Bound(placeholders[i], params)))
    ensures Inserted(before, after, streamId, chunk, positions)
  {
  }

  lemma InsertedMore(start: seq<(nat, Stored)>, before: seq<(nat, Stored)>, after: seq<(nat, Stored)>, streamId: string,
                     done: seq<PreparedRow>, chunk: seq<PreparedRow>, positions: seq<nat>, more: seq<nat>)
    requires Inserted(start, before, streamId, done, positions) && Inserted(before, after, streamId, chunk, more)
    requires forall i, k :: 0 <= i < |positions| && 0 <= k < |more| ==> positions[i] < more[k]
    ensures Inserted(start, after, streamId, done + chunk, positions + more)
  {
    forall i | 0 <= i < |done| + |chunk|
      ensures after[|start| + i].0 == (positions + more)[i] && Holds(after[|start| + i].1, streamId, (done + chunk)[i])
    {
      if i < |done| {
        assert after[..|before|][|start| + i] == before[|start| + i];
      } else {
        assert after[|before| + (i - |done|)].0 == more[i - |done|];
      }
    }
    assert after[..|start|] == after[..|before|][..|start|];
  }
}
