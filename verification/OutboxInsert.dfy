/** Writing outbox rows: one row for every appended event and topic, in event order,
    inserted in chunks that respect PostgreSQL's parameter limit. */
module OutboxInsert {

  const PARAMS_PER_OUTBOX := 3
  const PG_MAX_PARAMS := 65535
  const MAX_OUTBOX_ROWS_PER_CHUNK := PG_MAX_PARAMS / PARAMS_PER_OUTBOX

  datatype OutboxRow<+P> = OutboxRow(position: nat, topic: string, payload: P)

  /** The rows of one event, one per topic. */
  function TopicRows<P>(position: nat, payload: P, topics: seq<string>): (rows: seq<OutboxRow<P>>)
    ensures |rows| == |topics|
    ensures forall j :: 0 <= j < |topics| ==> rows[j] == OutboxRow(position, topics[j], payload)
  {
    if topics == [] then []
    else TopicRows(position, payload, topics[..|topics| - 1]) + [OutboxRow(position, topics[|topics| - 1], payload)]
  }

  /** The rows of a whole append: every event in order, every topic for each. */
  function OutboxRows<P>(payloads: seq<P>, positions: seq<nat>, topics: seq<string>): seq<OutboxRow<P>>
    requires |positions| == |payloads|
    decreases |payloads|
  {
    var n := |payloads|;
    if n == 0 then []
    else OutboxRows(payloads[..n - 1], positions[..n - 1], topics) + TopicRows(positions[n - 1], payloads[n - 1], topics)
  }

  /** There are exactly events x topics rows. */
  lemma {:induction false} OutboxRowsCount<P>(payloads: seq<P>, positions: seq<nat>, topics: seq<string>)
    requires |positions| == |payloads|
    ensures |OutboxRows(payloads, positions, topics)| == |payloads| * |topics|
    decreases |payloads|
  {
    var n := |payloads|;
    if n == 0 {
    } else {
      OutboxRowsCount(payloads[..n - 1], positions[..n - 1], topics);
      Distribute(n - 1, |topics|);
    }
  }

  /** Row i * |topics| + j carries event i's position and payload to topic j. */
  lemma {:induction false} OutboxRowsAligned<P>(
      payloads: seq<P>, positions: seq<nat>, topics: seq<string>, i: nat, j: nat, k: nat)
    requires |positions| == |payloads|
    requires i < |payloads| && j < |topics| && k == i * |topics| + j
    ensures k < |OutboxRows(payloads, positions, topics)|
    ensures OutboxRows(payloads, positions, topics)[k] == OutboxRow(positions[i], topics[j], payloads[i])
    decreases |payloads|
  {
    var n := |payloads|;
    OutboxRowsCount(payloads[..n - 1], positions[..n - 1], topics);
    if i < n - 1 {
      OutboxRowsAligned(payloads[..n - 1], positions[..n - 1], topics, i, j, k);
    }
  }

  lemma Distribute(n: nat, w: nat)
    ensures (n + 1) * w == n * w + w
  {
  }

  /** The nested loops of buildOutboxRows. */
  method BuildOutboxRows<P>(payloads: seq<P>, positions: seq<nat>, topics: seq<string>)
    returns (allOutboxRows: seq<OutboxRow<P>>)
    requires |positions| == |payloads|
    ensures allOutboxRows == OutboxRows(payloads, positions, topics)
  {
    allOutboxRows := [];
    for i := 0 to |payloads|
      invariant allOutboxRows == OutboxRows(payloads[..i], positions[..i], topics)
    {
      ghost var before := allOutboxRows;
      for j := 0 to |topics|
        invariant allOutboxRows == before + TopicRows(positions[i], payloads[i], topics[..j])
      {
        allOutboxRows := allOutboxRows + [OutboxRow(positions[i], topics[j], payloads[i])];
        assert topics[..j + 1][..j] == topics[..j];
      }
      assert topics[..|topics|] == topics;
      assert payloads[..i + 1][..i] == payloads[..i] && positions[..i + 1][..i] == positions[..i];
    }
    assert payloads[..|payloads|] == payloads && positions[..|positions|] == positions;
  }

  /** The outbox table as the inserting connection sees it, with the parameter count of
      every statement sent to it. */
  class OutboxTable<P> {
    var rows: seq<OutboxRow<P>>
    var statements: seq<nat>

    constructor ()
      ensures rows == [] && statements == []
    {
      rows, statements := [], [];
    }

    method Insert(chunk: seq<OutboxRow<P>>)
      modifies this
      ensures rows == old(rows) + chunk
      ensures statements == old(statements) + [PARAMS_PER_OUTBOX * |chunk|]
    {
      rows := rows + chunk;
      statements := statements + [PARAMS_PER_OUTBOX * |chunk|];
    }

    /** insertOutboxChunks: all rows arrive once and in order, no statement exceeds the
        parameter limit, and none is empty. */
    method InsertOutboxChunks(newRows: seq<OutboxRow<P>>)
      modifies this
      ensures rows == old(rows) + newRows
      ensures |statements| >= |old(statements)| && statements[..|old(statements)|] == old(statements)
      ensures forall k :: |old(statements)| <= k < |statements| ==> 0 < statements[k] <= PG_MAX_PARAMS
    {
      var chunkStart := 0;
      while chunkStart < |newRows|
        invariant 0 <= chunkStart
        invariant rows == old(rows) + newRows[..if chunkStart <= |newRows| then chunkStart else |newRows|]
        invariant |statements| >= |old(statements)| && statements[..|old(statements)|] == old(statements)
        invariant forall k :: |old(statements)| <= k < |statements| ==> 0 < statements[k] <= PG_MAX_PARAMS
      {
        var chunkEnd := if chunkStart + MAX_OUTBOX_ROWS_PER_CHUNK <= |newRows|
                        then chunkStart + MAX_OUTBOX_ROWS_PER_CHUNK else |newRows|;
        Insert(newRows[chunkStart..chunkEnd]);
        assert newRows[..chunkStart] + newRows[chunkStart..chunkEnd] == newRows[..chunkEnd];
        chunkStart := chunkStart + MAX_OUTBOX_ROWS_PER_CHUNK;
      }
      assert newRows[..|newRows|] == newRows;
    }
  }
}
