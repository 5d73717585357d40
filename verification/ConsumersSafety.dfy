/** Exactly-once projections and gap-free subscriptions, over every interleaving with writers,
    certifiers, other runs of the same projection and failing handlers. */
module ConsumersSafety {
  import opened Sequences
  import opened EventTable
  import opened CommitOrder
  import opened CommitOrderSafety
  import opened CommitOrderTheorems
  import opened Consumers

  // ---- Invariant ----

  /** What a projection has committed is its filter of the log up to its checkpoint. */
  ghost predicate ProjectionOk(defs: Projections, y: System, name: string) {
    && Checkpoint(y, name) <= y.store.watermark
    && Applied(y, name) == Select(y.store.committed, defs(name), 0, Checkpoint(y, name))
  }

  ghost predicate HoldsRow(y: System, r: nat)
    requires r in y.runners
  {
    var name := y.runners[r].projection;
    name in y.rowLocks && y.rowLocks[name] == r
  }

  ghost predicate RunnerOk(defs: Projections, y: System, r: nat)
    requires r in y.runners
  {
    var name, t := y.runners[r].projection, y.store.committed;
    match y.runners[r].phase
    case Certified(w) => w <= y.store.watermark
    case AtCheckpoint(w, checkpoint) =>
      w <= y.store.watermark && HoldsRow(y, r) && checkpoint == Checkpoint(y, name)
    case Loaded(w, checkpoint, rows) =>
      && w <= y.store.watermark && HoldsRow(y, r) && checkpoint == Checkpoint(y, name)
      && checkpoint <= LastOf(rows, checkpoint) <= y.store.watermark
      && rows == Select(t, EveryRow(), checkpoint, LastOf(rows, checkpoint))
    case Processed(checkpoint, handled, last) =>
      && HoldsRow(y, r) && checkpoint == Checkpoint(y, name)
      && checkpoint <= last <= y.store.watermark
      && handled == Select(t, defs(name), checkpoint, last)
  }

  /** A subscriber has emitted its filter of the log from its start to where it stands, and
      the rest of its batch comes next. */
  ghost predicate SubscriberOk(t: Table, watermark: nat, s: Subscriber) {
    && s.start == StartCursor(s.bound) && s.batchSize > 0
    && match s.phase
       case Polling => EmittedUpTo(t, watermark, s, s.cursor)
       case Emitting(w, next, rest) =>
         && EmittedUpTo(t, watermark, s, next)
         && w <= watermark
         && rest <= Select(t, s.filter, next, w)
  }

  ghost predicate EmittedUpTo(t: Table, watermark: nat, s: Subscriber, next: int) {
    && s.start <= next
    && (next == s.start || next <= watermark)
    && s.emitted == Select(t, s.filter, s.start, next)
    && (s.emitted != [] ==> s.emitted[|s.emitted| - 1] == next)
  }

  ghost predicate ConsumerInv(defs: Projections, y: System) {
    && (forall name :: ProjectionOk(defs, y, name))
    && (forall r :: r in y.runners ==> RunnerOk(defs, y, r))
    && (forall name :: name in y.rowLocks ==>
          y.rowLocks[name] in y.runners && y.runners[y.rowLocks[name]].projection == name)
    && (forall id :: id in y.subscribers ==> SubscriberOk(y.store.committed, y.store.watermark, y.subscribers[id]))
  }

  // ---- Store steps ----

  lemma SelectAdvances(s: State, s': State, keep: Filter, lo: int, hi: int)
    requires Advances(s, s') && -1 <= lo && (hi <= lo || hi <= s.watermark)
    ensures Select(s.committed, keep, lo, hi) == Select(s'.committed, keep, lo, hi)
  {
    if hi > lo {
      SelectFrame(s.committed, s'.committed, keep, lo, hi);
    }
  }

  lemma ProjectionAdvances(defs: Projections, y: System, s': State, name: string)
    requires ProjectionOk(defs, y, name) && Advances(y.store, s')
    ensures ProjectionOk(defs, y.(store := s'), name)
  {
    SelectAdvances(y.store, s', defs(name), 0, Checkpoint(y, name));
  }

  lemma RunnerAdvances(defs: Projections, y: System, s': State, r: nat)
    requires r in y.runners && RunnerOk(defs, y, r) && Advances(y.store, s')
    ensures RunnerOk(defs, y.(store := s'), r)
  {
    var p := y.runners[r].phase;
    if p.Loaded? {
      SelectAdvances(y.store, s', EveryRow(), p.checkpoint, LastOf(p.rows, p.checkpoint));
    } else if p.Processed? {
      SelectAdvances(y.store, s', defs(y.runners[r].projection), p.checkpoint, p.last);
    }
  }

  lemma SubscriberAdvances(s: State, s': State, sub: Subscriber)
    requires SubscriberOk(s.committed, s.watermark, sub) && Advances(s, s')
    ensures SubscriberOk(s'.committed, s'.watermark, sub)
  {
    var next := if sub.phase.Polling? then sub.cursor else sub.phase.next;
    SelectAdvances(s, s', sub.filter, sub.start, next);
    if sub.phase.Emitting? {
      SelectAdvances(s, s', sub.filter, next, sub.phase.w);
    }
  }

  lemma StoreKeepsConsumers(defs: Projections, y: System, s': State)
    requires ConsumerInv(defs, y) && Advances(y.store, s')
    ensures ConsumerInv(defs, y.(store := s'))
  {
    var y' := y.(store := s');
    forall name ensures ProjectionOk(defs, y', name) {
      ProjectionAdvances(defs, y, s', name);
    }
    forall r | r in y'.runners ensures RunnerOk(defs, y', r) {
      RunnerAdvances(defs, y, s', r);
    }
    forall id | id in y'.subscribers ensures SubscriberOk(s'.committed, s'.watermark, y'.subscribers[id]) {
      SubscriberAdvances(y.store, s', y.subscribers[id]);
    }
  }

  // ---- Runner steps ----

  /** A LIMIT batch above the checkpoint is the whole range up to its last row. */
  lemma BatchLoaded(t: Table, checkpoint: nat, w: nat, batchSize: nat)
    requires batchSize > 0
    ensures var rows := BatchOf(t, checkpoint, w, batchSize);
            checkpoint <= LastOf(rows, checkpoint) && (rows != [] ==> LastOf(rows, checkpoint) <= w) &&
            rows == Select(t, EveryRow(), checkpoint, LastOf(rows, checkpoint))
  {
    var rows := BatchOf(t, checkpoint, w, batchSize);
    if rows != [] {
      BatchIsRange(t, EveryRow(), checkpoint, w, |rows|);
    }
  }

  /** The handled events of a batch are the projection's filter of the range it covers. */
  lemma BatchProcessed(t: Table, keep: Filter, checkpoint: nat, rows: seq<nat>)
    requires rows == Select(t, EveryRow(), checkpoint, LastOf(rows, checkpoint))
    ensures Kept(t, keep, rows) == Select(t, keep, checkpoint, LastOf(rows, checkpoint))
  {
    KeptSelect(t, keep, checkpoint, LastOf(rows, checkpoint));
  }

  /** Steps of one runner leave the others, and projections it does not commit, alone. */
  lemma SetRunnerOk(defs: Projections, y: System, r: nat, phase: RunnerPhase)
    requires ConsumerInv(defs, y) && r in y.runners
    requires RunnerOk(defs, SetRunner(y, r, phase), r)
    ensures ConsumerInv(defs, SetRunner(y, r, phase))
  {
    var y' := SetRunner(y, r, phase);
    forall name ensures ProjectionOk(defs, y', name) {
      assert ProjectionOk(defs, y, name);
    }
    forall q | q in y'.runners ensures RunnerOk(defs, y', q) {
      if q != r {
        assert RunnerOk(defs, y, q);
      }
    }
  }

  lemma EndRunOk(defs: Projections, y: System, r: nat)
    requires ConsumerInv(defs, y) && r in y.runners
    ensures ConsumerInv(defs, EndRun(y, r))
  {
    var y' := EndRun(y, r);
    forall name ensures ProjectionOk(defs, y', name) {
      assert ProjectionOk(defs, y, name);
    }
    forall q | q in y'.runners ensures RunnerOk(defs, y', q) {
      assert RunnerOk(defs, y, q);
    }
  }

  lemma LockCheckpointOk(defs: Projections, y: System, r: nat)
    requires ConsumerInv(defs, y) && r in y.runners && RunnerEnabled(y, r, LockCheckpoint)
    ensures ConsumerInv(defs, ApplyRunner(defs, y, r, LockCheckpoint))
  {
    var y' := ApplyRunner(defs, y, r, LockCheckpoint);
    assert RunnerOk(defs, y, r);
    forall name ensures ProjectionOk(defs, y', name) {
      assert ProjectionOk(defs, y, name);
    }
    forall q | q in y'.runners ensures RunnerOk(defs, y', q) {
      if q != r {
        assert RunnerOk(defs, y, q);
      }
    }
  }

  /** The row lock is exclusive, so committing a run disturbs no other run of the projection. */
  lemma CommitRunOk(defs: Projections, y: System, r: nat)
    requires ConsumerInv(defs, y) && r in y.runners && RunnerEnabled(y, r, CommitRun)
    ensures ConsumerInv(defs, ApplyRunner(defs, y, r, CommitRun))
  {
    var name, p := y.runners[r].projection, y.runners[r].phase;
    var y' := ApplyRunner(defs, y, r, CommitRun);
    assert RunnerOk(defs, y, r);
    SelectSplit(y.store.committed, defs(name), 0, p.checkpoint, p.last);
    forall other ensures ProjectionOk(defs, y', other) {
      assert ProjectionOk(defs, y, other);
    }
    forall q | q in y'.runners ensures RunnerOk(defs, y', q) {
      assert RunnerOk(defs, y, q);
    }
  }

  lemma RunnerKeepsInv(defs: Projections, y: System, r: nat, k: RunnerStep)
    requires ConsumerInv(defs, y) && r in y.runners && RunnerEnabled(y, r, k)
    ensures ConsumerInv(defs, ApplyRunner(defs, y, r, k))
  {
    var p, t := y.runners[r].phase, y.store.committed;
    assert RunnerOk(defs, y, r);
    match k
    case LockCheckpoint => LockCheckpointOk(defs, y, r);
    case ReadBatch(batchSize) =>
      BatchLoaded(t, p.checkpoint, p.w, batchSize);
      assert ProjectionOk(defs, y, y.runners[r].projection);
      SetRunnerOk(defs, y, r, Loaded(p.w, p.checkpoint, BatchOf(t, p.checkpoint, p.w, batchSize)));
    case Process(succeeds) =>
      var keep := defs(y.runners[r].projection);
      if AllHandled(t, keep, succeeds, p.rows) {
        BatchProcessed(t, keep, p.checkpoint, p.rows);
        SetRunnerOk(defs, y, r, Processed(p.checkpoint, Kept(t, keep, p.rows), LastOf(p.rows, p.checkpoint)));
      } else {
        EndRunOk(defs, y, r);
      }
    case CommitRun => CommitRunOk(defs, y, r);
    case AbortRun => EndRunOk(defs, y, r);
  }

  // ---- Subscriber steps ----

  lemma YieldedOk(t: Table, watermark: nat, s: Subscriber)
    requires SubscriberOk(t, watermark, s) && s.phase.Emitting? && s.phase.rest != []
    ensures SubscriberOk(t, watermark, Yielded(s))
  {
    var p := s.phase;
    var ahead := Select(t, s.filter, p.next, p.w);
    BatchIsRange(t, s.filter, p.next, p.w, 1);
    assert ahead[0] == p.rest[0];
    SelectSplit(t, s.filter, s.start, p.next, p.rest[0]);
    assert ahead[..1] == [p.rest[0]];
  }

  lemma PolledOk(t: Table, watermark: nat, w: nat, s: Subscriber)
    requires SubscriberOk(t, watermark, s) && s.phase.Polling? && w <= watermark
    ensures SubscriberOk(t, watermark, Polled(t, w, s))
  {
  }

  lemma SubscriberKeepsInv(defs: Projections, y: System, id: nat, p: SubscriberStep)
    requires ConsumerInv(defs, y) && CertInv(y.store) && id in y.subscribers && SubscriberEnabled(y, id, p)
    ensures ConsumerInv(defs, ApplySubscriber(y, id, p))
  {
    var s, t, watermark := y.subscribers[id], y.store.committed, y.store.watermark;
    assert SubscriberOk(t, watermark, s);
    match p
    case Poll(certificate) =>
      PolledOk(t, watermark, y.store.returned[certificate], s);
      SetSubscriberOk(defs, y, id, Polled(t, y.store.returned[certificate], s));
    case Yield =>
      YieldedOk(t, watermark, s);
      SetSubscriberOk(defs, y, id, Yielded(s));
    case EndBatch => SetSubscriberOk(defs, y, id, BatchEnded(s));
    case Stop => StoppedOk(defs, y, id);
  }

  lemma SetSubscriberOk(defs: Projections, y: System, id: nat, s: Subscriber)
    requires ConsumerInv(defs, y) && SubscriberOk(y.store.committed, y.store.watermark, s)
    ensures ConsumerInv(defs, SetSubscriber(y, id, s))
  {
    var y' := SetSubscriber(y, id, s);
    forall name ensures ProjectionOk(defs, y', name) {
      assert ProjectionOk(defs, y, name);
    }
    forall q | q in y'.runners ensures RunnerOk(defs, y', q) {
      assert RunnerOk(defs, y, q);
    }
  }

  lemma StoppedOk(defs: Projections, y: System, id: nat)
    requires ConsumerInv(defs, y)
    ensures ConsumerInv(defs, y.(subscribers := y.subscribers - {id}))
  {
    var y' := y.(subscribers := y.subscribers - {id});
    forall name ensures ProjectionOk(defs, y', name) {
      assert ProjectionOk(defs, y, name);
    }
    forall q | q in y'.runners ensures RunnerOk(defs, y', q) {
      assert RunnerOk(defs, y, q);
    }
  }

  // ---- Runs of the whole system ----

  lemma StartRunOk(defs: Projections, y: System, r: nat, name: string, w: nat)
    requires ConsumerInv(defs, y) && r !in y.runners && w <= y.store.watermark
    ensures ConsumerInv(defs, y.(runners := y.runners[r := Runner(name, Certified(w))]))
  {
    var y' := y.(runners := y.runners[r := Runner(name, Certified(w))]);
    forall other ensures ProjectionOk(defs, y', other) {
      assert ProjectionOk(defs, y, other);
    }
    forall q | q in y'.runners ensures RunnerOk(defs, y', q) {
      if q != r {
        assert RunnerOk(defs, y, q);
      }
    }
  }

  lemma SystemStepKeepsInv(h: Hash, defs: Projections, y: System, a: SystemStep)
    requires Inv(h, y.store) && ConsumerInv(defs, y) && SystemEnabled(h, y, a)
    ensures var y' := ApplySystem(h, defs, y, a);
            Inv(h, y'.store) && ConsumerInv(defs, y') && Advances(y.store, y'.store)
  {
    hide StoreInv, AccountInv, CertOk, ConsumerInv, Enabled, Apply, RunnerEnabled, ApplyRunner;
    match a
    case Store(b) =>
      StepKeepsInv(h, y.store, b);
      StepAdvances(h, y.store, b);
      StoreKeepsConsumers(defs, y, Apply(h, y.store, b));
    case StartRun(r, name, certificate) => StartRunOk(defs, y, r, name, y.store.returned[certificate]);
    case Run(r, k) =>
      RunnerKeepsInv(defs, y, r, k);
      RunnerKeepsStore(defs, y, r, k);
    case Subscribe(id, filter, bound, batchSize) =>
      var start := StartCursor(bound);
      SetSubscriberOk(defs, y, id, Subscriber(filter, bound, start, batchSize, start, [], Polling));
    case Pump(id, p) => SubscriberKeepsInv(defs, y, id, p);
  }

  lemma RunnerKeepsStore(defs: Projections, y: System, r: nat, k: RunnerStep)
    requires r in y.runners && RunnerEnabled(y, r, k)
    ensures ApplyRunner(defs, y, r, k).store == y.store
  {
  }

  lemma InitSystemInv(h: Hash, defs: Projections)
    ensures Inv(h, InitSystem().store) && ConsumerInv(defs, InitSystem())
  {
    InitInv(h);
  }

  lemma {:induction false} SystemRunKeepsInv(h: Hash, defs: Projections, y: System, steps: seq<SystemStep>)
    requires Inv(h, y.store) && ConsumerInv(defs, y) && SystemRuns(h, defs, y, steps)
    ensures var y' := SystemAfter(h, defs, y, steps);
            Inv(h, y'.store) && ConsumerInv(defs, y') && Advances(y.store, y'.store)
    decreases |steps|
  {
    hide Inv, ConsumerInv, SystemEnabled, ApplySystem;
    if steps == [] {
    } else {
      SystemStepKeepsInv(h, defs, y, steps[0]);
      SystemRunKeepsInv(h, defs, ApplySystem(h, defs, y, steps[0]), steps[1..]);
    }
  }

  lemma SystemReachableInv(h: Hash, defs: Projections, y: System)
    requires SystemReachable(h, defs, y)
    ensures Inv(h, y.store) && ConsumerInv(defs, y)
  {
    InitSystemInv(h, defs);
    hide Inv, ConsumerInv, SystemRuns, SystemAfter;
    var steps :| SystemRuns(h, defs, InitSystem(), steps) && SystemAfter(h, defs, InitSystem(), steps) == y;
    SystemRunKeepsInv(h, defs, InitSystem(), steps);
  }

  // ---- Projections ----

  /** No checkpoint stays locked: whoever holds one is a run of that projection still going on,
      however others ended. */
  lemma CheckpointLocksHaveHolders(h: Hash, defs: Projections, y: System, name: string)
    requires SystemReachable(h, defs, y) && name in y.rowLocks
    ensures y.rowLocks[name] in y.runners && y.runners[y.rowLocks[name]].projection == name
  {
    hide SystemReachable, Inv;
    SystemReachableInv(h, defs, y);
  }

  /** Exactly once, in order: the committed handler applications of a projection are the
      events it does not ignore at positions up to its checkpoint, each once, ascending. */
  lemma ProjectionExactlyOnce(h: Hash, defs: Projections, y: System, name: string)
    requires SystemReachable(h, defs, y)
    ensures Ascending(Applied(y, name))
    ensures forall p :: p in Applied(y, name) <==>
              p in y.store.committed && 1 <= p <= Checkpoint(y, name) && defs(name)(y.store.committed[p])
  {
    hide SystemReachable, Inv;
    SystemReachableInv(h, defs, y);
    assert ProjectionOk(defs, y, name);
    SelectAscending(y.store.committed, defs(name), 0, Checkpoint(y, name));
    SelectMembers(y.store.committed, defs(name), 0, Checkpoint(y, name));
  }

  lemma StepExtendsApplied(h: Hash, defs: Projections, y: System, a: SystemStep, name: string)
    requires ConsumerInv(defs, y) && SystemEnabled(h, y, a)
    ensures var y' := ApplySystem(h, defs, y, a);
            Checkpoint(y, name) <= Checkpoint(y', name) && Applied(y, name) <= Applied(y', name)
  {
    hide Enabled, Apply, ApplyRunner, RunnerEnabled, SubscriberEnabled, ConsumerInv;
    if a.Run? {
      RunnerExtendsApplied(defs, y, a.r, a.k, name);
    }
  }

  lemma RunnerExtendsApplied(defs: Projections, y: System, r: nat, k: RunnerStep, name: string)
    requires ConsumerInv(defs, y) && r in y.runners && RunnerEnabled(y, r, k)
    ensures var y' := ApplyRunner(defs, y, r, k);
            Checkpoint(y, name) <= Checkpoint(y', name) && Applied(y, name) <= Applied(y', name)
  {
    assert RunnerOk(defs, y, r);
    hide ConsumerInv, RunnerOk, Select, Kept;
  }

  lemma {:induction false} RunExtendsApplied(
      h: Hash, defs: Projections, y: System, steps: seq<SystemStep>, name: string)
    requires Inv(h, y.store) && ConsumerInv(defs, y) && SystemRuns(h, defs, y, steps)
    ensures var y' := SystemAfter(h, defs, y, steps);
            Checkpoint(y, name) <= Checkpoint(y', name) && Applied(y, name) <= Applied(y', name)
    decreases |steps|
  {
    hide Inv, ConsumerInv, SystemEnabled, ApplySystem;
    if steps == [] {
    } else {
      StepExtendsApplied(h, defs, y, steps[0], name);
      SystemStepKeepsInv(h, defs, y, steps[0]);
      RunExtendsApplied(h, defs, ApplySystem(h, defs, y, steps[0]), steps[1..], name);
    }
  }

  /** None skipped: whatever happens later, every event of the later log at or below today's
      checkpoint that the projection does not ignore has been handled today, and handled
      events are never undone or handled again. */
  lemma ProjectionNeverSkips(h: Hash, defs: Projections, y: System, later: seq<SystemStep>, name: string)
    requires SystemReachable(h, defs, y) && SystemRuns(h, defs, y, later)
    ensures var y' := SystemAfter(h, defs, y, later);
            Applied(y, name) <= Applied(y', name) && Checkpoint(y, name) <= Checkpoint(y', name) &&
            forall p :: p in y'.store.committed && 1 <= p <= Checkpoint(y, name) && defs(name)(y'.store.committed[p]) ==>
              p in Applied(y, name)
  {
    hide SystemReachable, Inv, SystemRuns, SystemAfter;
    SystemReachableInv(h, defs, y);
    ProjectionExactlyOnce(h, defs, y, name);
    RunExtendsApplied(h, defs, y, later, name);
    SystemRunKeepsInv(h, defs, y, later);
    assert ProjectionOk(defs, y, name);
  }

  // ---- Subscriptions ----

  function Position(s: Subscriber): int {
    if s.phase.Polling? then s.cursor else s.phase.next
  }

  /** The positions a lower bound lets through. */
  predicate WithinBound(bound: LowerBound, p: int) {
    match bound
    case FromStart => 1 <= p
    case Exclusive(id) => id < p
    case Inclusive(id) => id <= p
  }

  /** Gap-freedom: a subscriber has emitted, strictly ascending, exactly the events matching its
      filter from its lower bound to where it stands, judged by the log of any later state. */
  lemma SubscriptionGapFree(h: Hash, defs: Projections, y: System, later: seq<SystemStep>, id: nat)
    requires SystemReachable(h, defs, y) && SystemRuns(h, defs, y, later) && id in y.subscribers
    ensures var s := y.subscribers[id];
            var t' := SystemAfter(h, defs, y, later).store.committed;
            Ascending(s.emitted) && s.emitted == Select(t', s.filter, s.start, Position(s)) &&
            forall p :: p in s.emitted <==>
              1 <= p <= Position(s) && WithinBound(s.bound, p) && p in t' && s.filter(t'[p])
  {
    hide SystemReachable, Inv, SystemRuns, SystemAfter;
    SystemReachableInv(h, defs, y);
    SystemRunKeepsInv(h, defs, y, later);
    var s, y' := y.subscribers[id], SystemAfter(h, defs, y, later);
    assert SubscriberOk(y.store.committed, y.store.watermark, s);
    SelectAdvances(y.store, y'.store, s.filter, s.start, Position(s));
    SelectAscending(y'.store.committed, s.filter, s.start, Position(s));
    SelectMembers(y'.store.committed, s.filter, s.start, Position(s));
  }

  /** Resuming from the last position processed, exclusively, continues the emission as if
      it had never stopped. */
  lemma ResumeExclusive(t: Table, filter: Filter, start: int, id: nat, upTo: int)
    requires start <= id <= upTo
    ensures Select(t, filter, start, id) + Select(t, filter, StartCursor(Exclusive(id)), upTo)
         == Select(t, filter, start, upTo)
  {
    SelectSplit(t, filter, start, id, upTo);
  }

  /** Resuming inclusively repeats the last event once and loses nothing. */
  lemma ResumeInclusive(t: Table, filter: Filter, start: int, id: nat, upTo: int)
    requires start < id <= upTo && 1 <= id && id in t && filter(t[id])
    ensures var second := Select(t, filter, StartCursor(Inclusive(id)), upTo);
            Select(t, filter, start, id) == Select(t, filter, start, id - 1) + [id] &&
            second != [] && second[0] == id &&
            Select(t, filter, start, id - 1) + second == Select(t, filter, start, upTo)
  {
    SelectSplit(t, filter, start, id - 1, upTo);
    SelectSplit(t, filter, id - 1, id, upTo);
    assert Select(t, filter, id - 1, id) == [id] by {
      assert Select(t, filter, id - 1, id - 1) == [];
    }
  }

  lemma SubscriberBounds(h: Hash, defs: Projections, y: System, id: nat)
    requires SystemReachable(h, defs, y) && id in y.subscribers
    ensures y.subscribers[id].start <= Position(y.subscribers[id])
  {
    hide SystemReachable, Inv;
    SystemReachableInv(h, defs, y);
    assert SubscriberOk(y.store.committed, y.store.watermark, y.subscribers[id]);
  }

  /** Stopping and resuming: a subscriber that starts where another one stands (exclusively),
      or at the last event that one emitted (inclusively), carries its emission on, whatever
      was committed meanwhile. */
  lemma ResumedSubscription(h: Hash, defs: Projections, y: System, later: seq<SystemStep>, stopped: nat, resumed: nat)
    requires SystemReachable(h, defs, y) && SystemRuns(h, defs, y, later)
    requires stopped in y.subscribers && resumed in y.subscribers
    requires y.subscribers[stopped].filter == y.subscribers[resumed].filter
    ensures var s, r := y.subscribers[stopped], y.subscribers[resumed];
            var t' := SystemAfter(h, defs, y, later).store.committed;
            (r.start == Position(s) ==> s.emitted + r.emitted == Select(t', s.filter, s.start, Position(r))) &&
            (s.emitted != [] && r.start + 1 == s.emitted[|s.emitted| - 1] <= Position(r) ==>
               s.emitted[..|s.emitted| - 1] + r.emitted == Select(t', s.filter, s.start, Position(r)))
  {
    hide SystemReachable, SystemRuns, SystemAfter, Select;
    var s, r := y.subscribers[stopped], y.subscribers[resumed];
    var t' := SystemAfter(h, defs, y, later).store.committed;
    SubscriptionGapFree(h, defs, y, later, stopped);
    SubscriptionGapFree(h, defs, y, later, resumed);
    SubscriberBounds(h, defs, y, stopped);
    SubscriberBounds(h, defs, y, resumed);
    if r.start == Position(s) {
      SelectSplit(t', s.filter, s.start, r.start, Position(r));
    }
    if s.emitted != [] {
      var last: int := s.emitted[|s.emitted| - 1];
      assert s.emitted[|s.emitted| - 1] in s.emitted;
      if last <= Position(r) && r.start == last - 1 {
        EmittedButLast(t', s.filter, s.start, Position(s));
        SelectSplit(t', s.filter, s.start, last - 1, Position(r));
      }
    }
  }

  /** All but the last of the selected positions lie below it. */
  lemma EmittedButLast(t: Table, filter: Filter, lo: int, hi: int)
    requires Select(t, filter, lo, hi) != []
    ensures var all := Select(t, filter, lo, hi);
            var last: int := all[|all| - 1];
            lo < last && all[..|all| - 1] == Select(t, filter, lo, last - 1)
  {
    hide Select;
    var all := Select(t, filter, lo, hi);
    var last := all[|all| - 1];
    SelectMembers(t, filter, lo, hi);
    SelectAscending(t, filter, lo, hi);
    assert last in all;
    SelectSplit(t, filter, lo, last, hi);
    SelectMembers(t, filter, lo, last);
    var upTo := Select(t, filter, lo, last);
    var i :| 0 <= i < |upTo| && upTo[i] == last;
    assert all[i] == last;
    assert all == upTo;
    SelectOneMore(t, filter, lo, last);
  }

  lemma SelectOneMore(t: Table, filter: Filter, lo: int, last: int)
    requires 0 < last && lo < last && last in t && filter(t[last])
    ensures Select(t, filter, lo, last) == Select(t, filter, lo, last - 1) + [last]
  {
  }
}
