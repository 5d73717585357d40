/** Projections and subscriptions running beside the writers and certifiers.

    A projection run certifies in one transaction and works in a later one
    (EventStoreMaintenance.runProjection); a subscriber polls the same certificate.  Both
    are modelled with any certificate returned so far, however stale, and their steps
    interleave with every step of the commit-order protocol. */
module Consumers {
  import opened Sequences
  import opened EventTable
  import opened CommitOrder

  // ---- runProjection ----

  /** The position the batch loop ends on. */
  function LastOf(ps: seq<nat>, otherwise: int): int {
    if ps == [] then otherwise else ps[|ps| - 1]
  }

  /** What a handler does with the event at a position: it may throw. */
  type Handler = nat -> bool

  /** Whether the loop over the rows gets through: every event that is not ignored is handled. */
  ghost predicate AllHandled(t: Table, keep: Filter, succeeds: Handler, rows: seq<nat>) {
    forall i :: 0 <= i < |rows| && rows[i] in t && keep(t[rows[i]]) ==> succeeds(rows[i])
  }

  /** The batch loop of runProjection: the handled events and the new checkpoint. */
  method ProcessRows(t: Table, keep: Filter, succeeds: Handler, rows: seq<nat>, lastPosition: nat)
    returns (ok: bool, handled: seq<nat>, newLastPosition: nat)
    requires forall i :: 0 <= i < |rows| ==> rows[i] in t
    ensures ok <==> AllHandled(t, keep, succeeds, rows)
    ensures ok ==> handled == Kept(t, keep, rows) && newLastPosition == LastOf(rows, lastPosition)
    ensures !ok ==> exists k :: 0 <= k < |rows| && keep(t[rows[k]]) && !succeeds(rows[k]) &&
                                handled == Kept(t, keep, rows[..k])
  {
    handled, newLastPosition := [], lastPosition;
    for i := 0 to |rows|
      invariant AllHandled(t, keep, succeeds, rows[..i])
      invariant handled == Kept(t, keep, rows[..i])
      invariant newLastPosition == LastOf(rows[..i], lastPosition)
    {
      assert rows[..i + 1] == rows[..i] + [rows[i]];
      KeptSnoc(t, keep, rows[..i], rows[i]);
      if keep(t[rows[i]]) {
        if !succeeds(rows[i]) {
          return false, handled, newLastPosition;
        }
        handled := handled + [rows[i]];
      }
      newLastPosition := rows[i];
    }
    assert rows[..|rows|] == rows;
    ok := true;
  }

  // ---- State ----

  datatype RunnerPhase =
    | Certified(w: nat)                                     // certificate in hand, transaction to come
    | AtCheckpoint(w: nat, checkpoint: nat)                 // checkpoint row locked and read
    | Loaded(w: nat, checkpoint: nat, rows: seq<nat>)       // batch read
    | Processed(checkpoint: nat, handled: seq<nat>, last: nat)

  datatype Runner = Runner(projection: string, phase: RunnerPhase)

  datatype SubscriberPhase =
    | Polling
    | Emitting(w: nat, next: int, rest: seq<nat>)           // rows of the batch still to be yielded

  /** A subscription's lower bound: absent, or a position with its kind. */
  datatype LowerBound = FromStart | Exclusive(id: nat) | Inclusive(id: nat)

  datatype Subscriber = Subscriber(
    filter: Filter, bound: LowerBound, start: int, batchSize: nat, cursor: int, emitted: seq<nat>, phase: SubscriberPhase)

  /** resolveStartCursor. */
  function StartCursor(bound: LowerBound): (cursor: int)
    ensures cursor >= -1
  {
    match bound
    case FromStart => 0
    case Exclusive(id) => id
    case Inclusive(id) => id - 1
  }

  datatype System = System(
    store: State,
    checkpoints: map<string, nat>,        // projections.last_position
    applied: map<string, seq<nat>>,       // committed handler applications, in order
    rowLocks: map<string, nat>,           // checkpoint row -> runner that holds it FOR UPDATE
    runners: map<nat, Runner>,
    subscribers: map<nat, Subscriber>)

  datatype RunnerStep =
    | LockCheckpoint
    | ReadBatch(batchSize: nat)
    | Process(succeeds: Handler)
    | CommitRun
    | AbortRun

  datatype SubscriberStep =
    | Poll(certificate: nat)
    | Yield
    | EndBatch
    | Stop

  datatype SystemStep =
    | Store(a: Step)
    | StartRun(r: nat, projection: string, certificate: nat)
    | Run(r: nat, k: RunnerStep)
    | Subscribe(id: nat, filter: Filter, bound: LowerBound, batchSize: nat)
    | Pump(id: nat, p: SubscriberStep)

  /** ignoresEvent, negated, for every projection name. */
  type Projections = string -> Filter

  function InitSystem(): System {
    System(Init(), map[], map[], map[], map[], map[])
  }

  function Checkpoint(y: System, name: string): nat {
    if name in y.checkpoints then y.checkpoints[name] else 0
  }

  function Applied(y: System, name: string): seq<nat> {
    if name in y.applied then y.applied[name] else []
  }

  ghost predicate RunnerEnabled(y: System, r: nat, k: RunnerStep)
    requires r in y.runners
  {
    var p := y.runners[r].phase;
    match k
    case LockCheckpoint => p.Certified? && y.runners[r].projection !in y.rowLocks
    case ReadBatch(batchSize) => p.AtCheckpoint? && batchSize > 0
    case Process(succeeds) => p.Loaded?
    case CommitRun => p.Processed?
    case AbortRun => true
  }

  ghost predicate SubscriberEnabled(y: System, id: nat, p: SubscriberStep)
    requires id in y.subscribers
  {
    var phase := y.subscribers[id].phase;
    match p
    case Poll(certificate) => phase.Polling? && certificate < |y.store.returned|
    case Yield => phase.Emitting? && phase.rest != []
    case EndBatch => phase.Emitting? && phase.rest == []
    case Stop => true
  }

  ghost predicate SystemEnabled(h: Hash, y: System, a: SystemStep) {
    match a
    case Store(b) => Enabled(h, y.store, b)
    case StartRun(r, name, certificate) => r !in y.runners && certificate < |y.store.returned|
    case Run(r, k) => r in y.runners && RunnerEnabled(y, r, k)
    case Subscribe(id, filter, bound, batchSize) => id !in y.subscribers && batchSize > 0
    case Pump(id, p) => id in y.subscribers && SubscriberEnabled(y, id, p)
  }

  function SetRunner(y: System, r: nat, phase: RunnerPhase): System
    requires r in y.runners
  {
    y.(runners := y.runners[r := y.runners[r].(phase := phase)])
  }

  /** The end of a runner's transaction: its row lock, if it holds one, is released. */
  function EndRun(y: System, r: nat): System
    requires r in y.runners
  {
    var name := y.runners[r].projection;
    y.(runners := y.runners - {r},
       rowLocks := if name in y.rowLocks && y.rowLocks[name] == r then y.rowLocks - {name} else y.rowLocks)
  }

  /** The rows runProjection reads: none when the certificate is not above the checkpoint. */
  function BatchOf(t: Table, checkpoint: nat, w: nat, batchSize: nat): seq<nat> {
    if w <= checkpoint then [] else Take(Select(t, EveryRow(), checkpoint, w), batchSize)
  }

  ghost function ApplyRunner(defs: Projections, y: System, r: nat, k: RunnerStep): System
    requires r in y.runners && RunnerEnabled(y, r, k)
  {
    var name, p := y.runners[r].projection, y.runners[r].phase;
    match k
    case LockCheckpoint =>
      SetRunner(y, r, AtCheckpoint(p.w, Checkpoint(y, name))).(rowLocks := y.rowLocks[name := r])
    case ReadBatch(batchSize) =>
      SetRunner(y, r, Loaded(p.w, p.checkpoint, BatchOf(y.store.committed, p.checkpoint, p.w, batchSize)))
    case Process(succeeds) =>
      if AllHandled(y.store.committed, defs(name), succeeds, p.rows)
      then SetRunner(y, r, Processed(p.checkpoint, Kept(y.store.committed, defs(name), p.rows),
                                     LastOf(p.rows, p.checkpoint)))
      else EndRun(y, r)
    case CommitRun =>
      EndRun(y, r).(checkpoints := y.checkpoints[name := p.last],
                    applied := y.applied[name := Applied(y, name) + p.handled])
    case AbortRun => EndRun(y, r)
  }

  function SetSubscriber(y: System, id: nat, s: Subscriber): System {
    y.(subscribers := y.subscribers[id := s])
  }

  /** pumpBatch up to its event read: caught up, or a batch above the cursor to yield. */
  function Polled(t: Table, w: nat, s: Subscriber): Subscriber {
    if w <= s.cursor then s
    else s.(phase := Emitting(w, s.cursor, Take(Select(t, s.filter, s.cursor, w), s.batchSize)))
  }

  function Yielded(s: Subscriber): Subscriber
    requires s.phase.Emitting? && s.phase.rest != []
  {
    var p := s.phase;
    s.(emitted := s.emitted + [p.rest[0]], phase := Emitting(p.w, p.rest[0], p.rest[1..]))
  }

  function BatchEnded(s: Subscriber): Subscriber
    requires s.phase.Emitting?
  {
    s.(cursor := s.phase.next, phase := Polling)
  }

  function ApplySubscriber(y: System, id: nat, p: SubscriberStep): System
    requires id in y.subscribers
    requires p.Poll? ==> p.certificate < |y.store.returned|
    requires p.Yield? ==> y.subscribers[id].phase.Emitting? && y.subscribers[id].phase.rest != []
    requires p.EndBatch? ==> y.subscribers[id].phase.Emitting?
  {
    var s := y.subscribers[id];
    match p
    case Poll(certificate) => SetSubscriber(y, id, Polled(y.store.committed, y.store.returned[certificate], s))
    case Yield => SetSubscriber(y, id, Yielded(s))
    case EndBatch => SetSubscriber(y, id, BatchEnded(s))
    case Stop => y.(subscribers := y.subscribers - {id})
  }

  ghost function ApplySystem(h: Hash, defs: Projections, y: System, a: SystemStep): System
    requires SystemEnabled(h, y, a)
  {
    match a
    case Store(b) => y.(store := Apply(h, y.store, b))
    case StartRun(r, name, certificate) =>
      y.(runners := y.runners[r := Runner(name, Certified(y.store.returned[certificate]))])
    case Run(r, k) => ApplyRunner(defs, y, r, k)
    case Subscribe(id, filter, bound, batchSize) =>
      SetSubscriber(y, id, Subscriber(filter, bound, StartCursor(bound), batchSize, StartCursor(bound), [], Polling))
    case Pump(id, p) => ApplySubscriber(y, id, p)
  }

  ghost predicate SystemRuns(h: Hash, defs: Projections, y: System, steps: seq<SystemStep>)
    decreases |steps|
  {
    steps == [] ||
    (SystemEnabled(h, y, steps[0]) && SystemRuns(h, defs, ApplySystem(h, defs, y, steps[0]), steps[1..]))
  }

  ghost function SystemAfter(h: Hash, defs: Projections, y: System, steps: seq<SystemStep>): System
    requires SystemRuns(h, defs, y, steps)
    decreases |steps|
  {
    if steps == [] then y else SystemAfter(h, defs, ApplySystem(h, defs, y, steps[0]), steps[1..])
  }

  ghost predicate SystemReachable(h: Hash, defs: Projections, y: System) {
    exists steps :: SystemRuns(h, defs, InitSystem(), steps) && SystemAfter(h, defs, InitSystem(), steps) == y
  }

  // ---- pumpBatch and draining, as loops over a quiet store ----

  /** pumpBatch for one batch: everything it yields, the cursor it returns, and whether the
      batch was short. */
  method PumpBatch(t: Table, w: nat, filter: Filter, cursor: int, batchSize: nat)
    returns (yielded: seq<nat>, newCursor: int, caughtUp: bool)
    requires batchSize > 0
    ensures yielded == Take(Select(t, filter, cursor, w), batchSize)
    ensures newCursor == LastOf(yielded, cursor)
    ensures caughtUp <==> |Select(t, filter, cursor, w)| < batchSize
  {
    if w <= cursor {
      return [], cursor, true;
    }
    var rows := Take(Select(t, filter, cursor, w), batchSize);
    yielded, newCursor := [], cursor;
    for i := 0 to |rows|
      invariant yielded == rows[..i]
      invariant newCursor == LastOf(yielded, cursor)
    {
      newCursor := rows[i];
      yielded := yielded + [rows[i]];
    }
    caughtUp := |rows| < batchSize;
  }

  /** One pump consumes a prefix of what lies ahead; a short one consumes all of it. */
  lemma PumpAdvances(t: Table, filter: Filter, cursor: int, w: nat, batchSize: nat)
    requires batchSize > 0
    ensures var ahead := Select(t, filter, cursor, w);
            var yielded := Take(ahead, batchSize);
            ahead == yielded + Select(t, filter, LastOf(yielded, cursor), w) &&
            (|ahead| < batchSize ==> Select(t, filter, LastOf(yielded, cursor), w) == [])
  {
    hide Select;
    var yielded := Take(Select(t, filter, cursor, w), batchSize);
    if yielded != [] {
      BatchIsRange(t, filter, cursor, w, |yielded|);
    }
  }

  /** subscribe's loop while no writer commits: whatever the batch size it terminates,
      having yielded exactly the matching events above the start cursor, in order. */
  method Drain(t: Table, w: nat, filter: Filter, start: int, batchSize: nat)
    returns (emitted: seq<nat>, cursor: int)
    requires batchSize > 0
    ensures emitted == Select(t, filter, start, w)
    ensures cursor == LastOf(emitted, start)
  {
    emitted, cursor := [], start;
    var caughtUp := false;
    while !caughtUp
      invariant cursor == LastOf(emitted, start)
      invariant emitted + Select(t, filter, cursor, w) == Select(t, filter, start, w)
      invariant caughtUp ==> Select(t, filter, cursor, w) == []
      decreases !caughtUp, |Select(t, filter, cursor, w)|
    {
      PumpAdvances(t, filter, cursor, w, batchSize);
      var yielded, newCursor, short := PumpBatch(t, w, filter, cursor, batchSize);
      emitted, cursor, caughtUp := emitted + yielded, newCursor, short;
    }
  }
}
