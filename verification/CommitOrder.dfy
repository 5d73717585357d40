/** The commit-order protocol as a transition system.

    Any number of write transactions append to any streams, any number of times each,
    interleaved statement by statement and row by row; any number of certifiers run
    computeSafeWatermark between those steps.  READ COMMITTED is read as "a statement sees
    the committed rows plus the rows of its own transaction"; COMMIT publishes a
    transaction's rows and releases its locks in one step.  A step that would have to wait
    for a lock is not enabled. */
module CommitOrder {
  import opened Options
  import opened EventTable
  import opened OutboxInsert

  /** The 64-bit hash behind the stream lock; nothing is assumed about it, so streams may collide. */
  type Hash = string -> int

  /** What the idempotency digest stands for: the event batch and its outbox topics. */
  datatype Request = Request(events: seq<EventInput>, topics: seq<string>)

  datatype Call = Call(stream: string, expected: int, request: Request, key: Option<string>)

  /** A row of idempotency_keys. */
  datatype KeyRecord = KeyRecord(stream: string, request: Request, from: nat, to: int, positions: seq<nat>)

  /** What one successful append call returned, with the call it answers. */
  datatype Outcome = Outcome(call: Call, from: nat, to: int, positions: seq<nat>, duplicate: bool)

  /** Where a transaction stands inside its current append call. */
  datatype Phase =
    | Idle                                                      // between calls
    | Locked(call: Call)                                        // stream lock held
    | Fresh(call: Call)                                         // no stored answer for the key
    | Inserting(call: Call, from: nat, positions: seq<nat>)     // version validated, rows going in
    | Written(call: Call, from: nat, positions: seq<nat>)       // rows and outbox written
    | Refused                                                   // the call threw before writing; the caller may catch it
    | Failed                                                    // a statement raised; only ROLLBACK is left

  datatype Txn = Txn(
    locks: set<int>,                   // stream locks held, by hash
    fence: bool,                       // shared position fence held
    rows: Table,                       // own uncommitted event rows
    keys: map<string, KeyRecord>,      // own uncommitted idempotency keys
    outbox: seq<OutboxRow<EventInput>>,
    outcomes: seq<Outcome>,            // answers given to calls of this transaction
    phase: Phase)

  /** Where a certification attempt stands. */
  datatype CertPhase =
    | Waiting                          // BEGIN sent
    | HoldsReader                      // reader lock held
    | Tried(acquired: bool)            // exclusive fence tried
    | ReadCached(acquired: bool, last: nat)
    | ReadMax(last: nat, position: nat)
    | Ready(safe: nat)                 // only COMMIT is left

  datatype State = State(
    counter: nat,                      // last global_position handed out
    nextXid: nat,
    committed: Table,
    keys: map<string, KeyRecord>,
    outbox: seq<OutboxRow<EventInput>>,
    outcomes: seq<Outcome>,            // answers of committed transactions, in commit order
    txns: map<nat, Txn>,               // running write transactions by transaction id
    watermark: nat,                    // the projection_safe_watermark sequence
    reader: Option<nat>,               // certifier holding the reader lock
    exclusive: Option<nat>,            // certifier holding the fence exclusively
    certs: map<nat, CertPhase>,
    returned: seq<nat>)                // values returned by certification, in order

  datatype WriteStep =
    | Lock(call: Call)
    | CheckKey
    | Validate
    | Fence
    | InsertRow
    | WriteOutbox
    | Record
    | Throw
    | Catch
    | Raise
    | Commit
    | Rollback

  datatype CertStep =
    | TakeReader
    | TryFence(acquired: bool)
    | ReadSequence
    | ReadMaximum
    | SetSequence
    | Finish
    | Abort

  datatype Step =
    | Begin
    | Write(t: nat, w: WriteStep)
    | CertBegin(c: nat)
    | Certify(c: nat, k: CertStep)

  function Init(): State {
    State(0, 1, map[], map[], [], [], map[], 0, None, None, map[], [])
  }

  function NewTxn(): Txn {
    Txn({}, false, map[], map[], [], [], Idle)
  }

  /** What a statement of transaction t reads from the events table. */
  function View(s: State, t: nat): Table
    requires t in s.txns
  {
    s.committed + s.txns[t].rows
  }

  /** What a statement of transaction t reads from idempotency_keys. */
  function VisibleKeys(s: State, t: nat): map<string, KeyRecord>
    requires t in s.txns
  {
    s.keys + s.txns[t].keys
  }

  /** The version the next inserted row carries. */
  function NextVersion(p: Phase): nat
    requires p.Inserting?
  {
    p.from + |p.positions|
  }

  /** A row with this stream and version is already there: UNIQUE (stream_id, stream_version). */
  ghost predicate Clashes(t: Table, stream: string, version: nat) {
    exists p :: p in t && t[p].stream == stream && t[p].version == version
  }

  ghost predicate WriteEnabled(h: Hash, s: State, t: nat, w: WriteStep)
    requires t in s.txns
  {
    var x := s.txns[t];
    match w
    case Lock(call) =>
      x.phase == Idle && call.request.events != [] && call.expected >= -1 &&
      forall u :: u in s.txns && u != t ==> h(call.stream) !in s.txns[u].locks
    case CheckKey => x.phase.Locked?
    case Validate => x.phase.Fresh?
    case Fence => x.phase.Inserting? && s.exclusive == None
    case InsertRow =>
      x.fence && x.phase.Inserting? && |x.phase.positions| < |x.phase.call.request.events| &&
      // a clash with a row of another running transaction would make the insert wait
      forall u :: u in s.txns && u != t ==> !Clashes(s.txns[u].rows, x.phase.call.stream, NextVersion(x.phase))
    case WriteOutbox => x.phase.Inserting? && |x.phase.positions| == |x.phase.call.request.events|
    case Record =>
      x.phase.Written? &&
      // an uncommitted equal key of another transaction would make the insert wait
      (x.phase.call.key.Some? ==>
         forall u :: u in s.txns && u != t ==> x.phase.call.key.value !in s.txns[u].keys)
    case Throw => x.phase.Locked? || x.phase.Fresh? || (x.phase.Inserting? && x.phase.positions == [])
    case Catch => x.phase == Refused
    case Raise => true
    case Commit => x.phase == Idle
    case Rollback => true
  }

  ghost predicate CertEnabled(s: State, c: nat, k: CertStep)
    requires c in s.certs
  {
    var p := s.certs[c];
    match k
    case TakeReader => p == Waiting && s.reader == None
    case TryFence(acquired) =>
      p == HoldsReader && (acquired ==> s.exclusive == None && forall t :: t in s.txns ==> !s.txns[t].fence)
    case ReadSequence => p.Tried?
    case ReadMaximum => p.ReadCached? && p.acquired
    case SetSequence => p.ReadMax? || (p.ReadCached? && !p.acquired)
    case Finish => p.Ready?
    case Abort => true
  }

  ghost predicate Enabled(h: Hash, s: State, a: Step) {
    match a
    case Begin => true
    case Write(t, w) => t in s.txns && WriteEnabled(h, s, t, w)
    case CertBegin(c) => c !in s.certs
    case Certify(c, k) => c in s.certs && CertEnabled(s, c, k)
  }

  function Update(s: State, t: nat, x: Txn): State {
    s.(txns := s.txns[t := x])
  }

  function Leave(s: State, t: nat): State {
    s.(txns := s.txns - {t})
  }

  /** BEGIN of a write transaction. */
  function Begun(s: State): State {
    Update(s, s.nextXid, NewTxn()).(nextXid := s.nextXid + 1)
  }

  /** acquireStreamLock. */
  function Locking(h: Hash, x: Txn, call: Call): Txn {
    x.(locks := x.locks + {h(call.stream)}, phase := Locked(call))
  }

  /** checkIdempotencyKey: a stored answer is returned, one to another request throws. */
  function CheckingKey(x: Txn, visible: map<string, KeyRecord>): Txn
    requires x.phase.Locked?
  {
    var call := x.phase.call;
    if call.key == None || call.key.value !in visible then x.(phase := Fresh(call))
    else
      var record := visible[call.key.value];
      if record.stream != call.stream || record.request != call.request then x.(phase := Refused)
      else
        var answer := Outcome(call, record.from, record.to, record.positions, true);
        x.(outcomes := x.outcomes + [answer], phase := Idle)
  }

  /** validateVersion. */
  function Validating(x: Txn, current: nat): Txn
    requires x.phase.Fresh?
  {
    var call := x.phase.call;
    if (call.expected == -1 && current > 0) || (call.expected > 0 && current != call.expected)
    then x.(phase := Refused)
    else x.(phase := Inserting(call, current + 1, []))
  }

  /** The row the next insert writes. */
  function NextRow(t: nat, p: Phase): Row
    requires p.Inserting? && |p.positions| < |p.call.request.events|
  {
    Row(p.call.stream, NextVersion(p), p.call.request.events[|p.positions|], t)
  }

  /** nextval is never undone, whatever becomes of the row. */
  function Bump(s: State): State {
    s.(counter := s.counter + 1)
  }

  function AddRow(s: State, t: nat, row: Row, phase: Phase): State
    requires t in s.txns
  {
    Update(Bump(s), t, s.txns[t].(rows := s.txns[t].rows[s.counter + 1 := row], phase := phase))
  }

  /** One row of insertEventChunks; a unique violation raises. */
  ghost function DoInsertRow(s: State, t: nat): State
    requires t in s.txns && s.txns[t].phase.Inserting?
    requires |s.txns[t].phase.positions| < |s.txns[t].phase.call.request.events|
  {
    var p := s.txns[t].phase;
    if Clashes(View(s, t), p.call.stream, NextVersion(p)) then Update(Bump(s), t, s.txns[t].(phase := Failed))
    else AddRow(s, t, NextRow(t, p), Inserting(p.call, p.from, p.positions + [s.counter + 1]))
  }

  /** writeOutbox. */
  function WritingOutbox(x: Txn): Txn
    requires x.phase.Inserting? && |x.phase.positions| == |x.phase.call.request.events|
  {
    var p := x.phase;
    var rows := OutboxRows(p.call.request.events, p.positions, p.call.request.topics);
    x.(outbox := x.outbox + rows, phase := Written(p.call, p.from, p.positions))
  }

  function Answer(p: Phase): Outcome
    requires p.Written?
  {
    Outcome(p.call, p.from, p.from + |p.positions| - 1, p.positions, false)
  }

  function RecordOf(p: Phase): KeyRecord
    requires p.Written?
  {
    KeyRecord(p.call.stream, p.call.request, p.from, p.from + |p.positions| - 1, p.positions)
  }

  /** recordIdempotencyKey (a committed equal key raises) and the end of the call. */
  function Recording(x: Txn, visible: map<string, KeyRecord>): Txn
    requires x.phase.Written?
  {
    var p := x.phase;
    var answered := x.(outcomes := x.outcomes + [Answer(p)], phase := Idle);
    if p.call.key == None then answered
    else if p.call.key.value in visible then x.(phase := Failed)
    else answered.(keys := x.keys[p.call.key.value := RecordOf(p)])
  }

  /** The steps that change only the transaction's own record. */
  predicate Quiet(w: WriteStep) {
    !w.InsertRow? && !w.Commit? && !w.Rollback?
  }

  ghost function Quietly(h: Hash, s: State, t: nat, w: WriteStep): Txn
    requires t in s.txns && WriteEnabled(h, s, t, w) && Quiet(w)
  {
    var x := s.txns[t];
    match w
    case Lock(call) => Locking(h, x, call)
    case CheckKey => CheckingKey(x, VisibleKeys(s, t))
    case Validate => Validating(x, MaxVersion(View(s, t), x.phase.call.stream, s.counter))
    case Fence => x.(fence := true)
    case WriteOutbox => WritingOutbox(x)
    case Record => Recording(x, VisibleKeys(s, t))
    case Throw => x.(phase := Refused)
    case Catch => x.(phase := Idle)
    case Raise => x.(phase := Failed)
  }

  function DoCommit(s: State, t: nat): State
    requires t in s.txns
  {
    var x := s.txns[t];
    Leave(s, t).(committed := View(s, t), keys := VisibleKeys(s, t),
                 outbox := s.outbox + x.outbox, outcomes := s.outcomes + x.outcomes)
  }

  function DoCertSet(s: State, c: nat): State
    requires c in s.certs && (s.certs[c].ReadMax? || s.certs[c].ReadCached?)
  {
    var p := s.certs[c];
    if p.ReadMax? && p.position > p.last
    then s.(watermark := p.position, certs := s.certs[c := Ready(p.position)])
    else s.(certs := s.certs[c := Ready(p.last)])
  }

  /** The end of a certifier's transaction: both locks are released, the sequence keeps its value. */
  function CertLeave(s: State, c: nat): State {
    s.(certs := s.certs - {c},
       reader := if s.reader == Some(c) then None else s.reader,
       exclusive := if s.exclusive == Some(c) then None else s.exclusive)
  }

  ghost function ApplyWrite(h: Hash, s: State, t: nat, w: WriteStep): State
    requires t in s.txns && WriteEnabled(h, s, t, w)
  {
    if w.InsertRow? then DoInsertRow(s, t)
    else if w.Commit? then DoCommit(s, t)
    else if w.Rollback? then Leave(s, t)
    else Update(s, t, Quietly(h, s, t, w))
  }

  ghost function ApplyCert(s: State, c: nat, k: CertStep): State
    requires c in s.certs && CertEnabled(s, c, k)
  {
    var p := s.certs[c];
    match k
    case TakeReader => s.(certs := s.certs[c := HoldsReader], reader := Some(c))
    case TryFence(acquired) =>
      s.(certs := s.certs[c := Tried(acquired)], exclusive := if acquired then Some(c) else s.exclusive)
    case ReadSequence => s.(certs := s.certs[c := ReadCached(p.acquired, s.watermark)])
    case ReadMaximum => s.(certs := s.certs[c := ReadMax(p.last, MaxPosition(s.committed, s.counter))])
    case SetSequence => DoCertSet(s, c)
    case Finish => CertLeave(s, c).(returned := s.returned + [p.safe])
    case Abort => CertLeave(s, c)
  }

  ghost function Apply(h: Hash, s: State, a: Step): State
    requires Enabled(h, s, a)
  {
    match a
    case Begin => Begun(s)
    case Write(t, w) => ApplyWrite(h, s, t, w)
    case CertBegin(c) => s.(certs := s.certs[c := Waiting])
    case Certify(c, k) => ApplyCert(s, c, k)
  }

  // ---- Runs ----

  /** Every step of the run is enabled when its turn comes. */
  ghost predicate Runs(h: Hash, s: State, steps: seq<Step>)
    decreases |steps|
  {
    steps == [] || (Enabled(h, s, steps[0]) && Runs(h, Apply(h, s, steps[0]), steps[1..]))
  }

  /** The state a run ends in. */
  ghost function After(h: Hash, s: State, steps: seq<Step>): State
    requires Runs(h, s, steps)
    decreases |steps|
  {
    if steps == [] then s else After(h, Apply(h, s, steps[0]), steps[1..])
  }

  ghost predicate IsReachable(h: Hash, s: State) {
    exists steps :: Runs(h, Init(), steps) && After(h, Init(), steps) == s
  }
}
