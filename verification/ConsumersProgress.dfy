/** Projections and subscriptions get on: what one run or one batch moves, from every reachable
    state, and that repeating it leaves nothing behind a certificate. */
module ConsumersProgress {
  import opened Sequences
  import opened EventTable
  import opened CommitOrder
  import opened Consumers
  import opened ConsumersSafety

  // ---- Runs by their ends ----

  /** The steps are possible from y and end in y'. */
  ghost predicate SystemLeads(h: Hash, defs: Projections, y: System, steps: seq<SystemStep>, y': System) {
    SystemRuns(h, defs, y, steps) && SystemAfter(h, defs, y, steps) == y'
  }

  lemma {:induction false} LeadsJoin(h: Hash, defs: Projections, y: System, a: seq<SystemStep>, y1: System,
                                     b: seq<SystemStep>, y2: System)
    requires SystemLeads(h, defs, y, a, y1) && SystemLeads(h, defs, y1, b, y2)
    ensures SystemLeads(h, defs, y, a + b, y2)
    decreases |a|
  {
    hide SystemEnabled, ApplySystem;
    if a == [] {
      assert a + b == b;
    } else {
      LeadsJoin(h, defs, ApplySystem(h, defs, y, a[0]), a[1..], y1, b, y2);
      assert (a + b)[1..] == a[1..] + b;
    }
  }

  lemma LeadsOne(h: Hash, defs: Projections, y: System, a: SystemStep, y': System)
    requires SystemEnabled(h, y, a) && ApplySystem(h, defs, y, a) == y'
    ensures SystemLeads(h, defs, y, [a], y')
  {
    hide SystemEnabled, ApplySystem;
    assert SystemRuns(h, defs, y', []) && SystemAfter(h, defs, y', []) == y';
    var one := [a];
    assert one[0] == a && one[1..] == [];
  }

  lemma LeadsNowhere(h: Hash, defs: Projections, y: System)
    ensures SystemLeads(h, defs, y, [], y)
  {
  }

  // ---- One projection run ----

  /** The positions the next run covers: the first k committed ones above the checkpoint, up to
      the certificate. */
  function NextBatch(y: System, name: string, w: nat, k: nat): seq<nat> {
    Take(Select(y.store.committed, EveryRow(), Checkpoint(y, name), w), k)
  }

  function ProjectionRun(r: nat, name: string, certificate: nat, k: nat, succeeds: Handler): seq<SystemStep> {
    [StartRun(r, name, certificate), Run(r, LockCheckpoint), Run(r, ReadBatch(k)), Run(r, Process(succeeds)),
     Run(r, CommitRun)]
  }

  /** The handler gets through whatever of these the projection does not ignore. */
  ghost predicate Handles(y: System, keep: Filter, rows: seq<nat>, succeeds: Handler) {
    forall p :: p in rows && p in y.store.committed && keep(y.store.committed[p]) ==> succeeds(p)
  }

  /** The checkpoint on the last position of the batch, everything not ignored on the way applied. */
  function Projected(defs: Projections, y: System, name: string, w: nat, k: nat): System {
    var batch := NextBatch(y, name, w, k);
    var last := if batch == [] then Checkpoint(y, name) else batch[|batch| - 1];
    y.(checkpoints := y.checkpoints[name := last],
       applied := y.applied[name := Applied(y, name) + Select(y.store.committed, defs(name), Checkpoint(y, name), last)])
  }

  /** A run in progress. */
  function InRun(y: System, r: nat, name: string, phase: RunnerPhase): System {
    y.(runners := y.runners[r := Runner(name, phase)], rowLocks := if phase.Certified? then y.rowLocks else y.rowLocks[name := r])
  }

  lemma StartLeads(h: Hash, defs: Projections, y: System, r: nat, name: string, certificate: nat)
    requires r !in y.runners && name !in y.rowLocks && certificate < |y.store.returned|
    ensures SystemLeads(h, defs, y, [StartRun(r, name, certificate), Run(r, LockCheckpoint)],
                        InRun(y, r, name, AtCheckpoint(y.store.returned[certificate], Checkpoint(y, name))))
  {
    var y1 := InRun(y, r, name, Certified(y.store.returned[certificate]));
    var y2 := InRun(y, r, name, AtCheckpoint(y.store.returned[certificate], Checkpoint(y, name)));
    LeadsOne(h, defs, y, StartRun(r, name, certificate), y1);
    LeadsOne(h, defs, y1, Run(r, LockCheckpoint), y2);
    hide SystemLeads;
    LeadsJoin(h, defs, y, [StartRun(r, name, certificate)], y1, [Run(r, LockCheckpoint)], y2);
    assert [StartRun(r, name, certificate)] + [Run(r, LockCheckpoint)] == [StartRun(r, name, certificate), Run(r, LockCheckpoint)];
  }

  lemma ReadLeads(h: Hash, defs: Projections, y: System, r: nat, name: string, w: nat, k: nat)
    requires k > 0
    ensures SystemLeads(h, defs, InRun(y, r, name, AtCheckpoint(w, Checkpoint(y, name))), [Run(r, ReadBatch(k))],
                        InRun(y, r, name, Loaded(w, Checkpoint(y, name), NextBatch(y, name, w, k))))
  {
    var y1 := InRun(y, r, name, AtCheckpoint(w, Checkpoint(y, name)));
    var y2 := InRun(y, r, name, Loaded(w, Checkpoint(y, name), NextBatch(y, name, w, k)));
    hide SystemLeads;
    LeadsOne(h, defs, y1, Run(r, ReadBatch(k)), y2);
  }

  lemma ProcessLeads(h: Hash, defs: Projections, y: System, r: nat, name: string, w: nat, checkpoint: nat, rows: seq<nat>,
                     last: nat, succeeds: Handler)
    requires Handles(y, defs(name), rows, succeeds) && last == LastOf(rows, checkpoint)
    ensures SystemLeads(h, defs, InRun(y, r, name, Loaded(w, checkpoint, rows)), [Run(r, Process(succeeds))],
                        InRun(y, r, name, Processed(checkpoint, Kept(y.store.committed, defs(name), rows), last)))
  {
    hide SystemLeads, Kept;
    LeadsOne(h, defs, InRun(y, r, name, Loaded(w, checkpoint, rows)), Run(r, Process(succeeds)),
             InRun(y, r, name, Processed(checkpoint, Kept(y.store.committed, defs(name), rows), last)));
  }

  lemma CommitLeads(h: Hash, defs: Projections, y: System, r: nat, name: string, checkpoint: nat, handled: seq<nat>, last: nat)
    requires r !in y.runners && name !in y.rowLocks
    ensures SystemLeads(h, defs, InRun(y, r, name, Processed(checkpoint, handled, last)), [Run(r, CommitRun)],
                        y.(checkpoints := y.checkpoints[name := last], applied := y.applied[name := Applied(y, name) + handled]))
  {
    hide SystemLeads;
    var y1 := InRun(y, r, name, Processed(checkpoint, handled, last));
    assert y1.runners - {r} == y.runners && y1.rowLocks - {name} == y.rowLocks;
    LeadsOne(h, defs, y1, Run(r, CommitRun),
             y.(checkpoints := y.checkpoints[name := last], applied := y.applied[name := Applied(y, name) + handled]));
  }

  /** A run whose handlers succeed moves the checkpoint to the k-th committed position above it, or
      to the last one certified when fewer are there, and applies the events on the way, whatever
      else is going on. */
  lemma RunMovesCheckpoint(h: Hash, defs: Projections, y: System, r: nat, name: string, certificate: nat, k: nat,
                           succeeds: Handler)
    requires r !in y.runners && name !in y.rowLocks && certificate < |y.store.returned| && k > 0
    requires Handles(y, defs(name), NextBatch(y, name, y.store.returned[certificate], k), succeeds)
    ensures SystemLeads(h, defs, y, ProjectionRun(r, name, certificate, k, succeeds),
                        Projected(defs, y, name, y.store.returned[certificate], k))
  {
    var t, w, checkpoint := y.store.committed, y.store.returned[certificate], Checkpoint(y, name);
    var rows := NextBatch(y, name, w, k);
    BatchIsNext(y, name, w, k);
    hide NextBatch, Handles, Select;
    BatchProcessed(t, defs(name), checkpoint, rows);
    var last: nat := LastOf(rows, checkpoint);
    var handled := Kept(t, defs(name), rows);
    StartLeads(h, defs, y, r, name, certificate);
    ReadLeads(h, defs, y, r, name, w, k);
    ProcessLeads(h, defs, y, r, name, w, checkpoint, rows, last, succeeds);
    CommitLeads(h, defs, y, r, name, checkpoint, handled, last);
    var y2, y3 := InRun(y, r, name, AtCheckpoint(w, checkpoint)), InRun(y, r, name, Loaded(w, checkpoint, rows));
    var y4, y5 := InRun(y, r, name, Processed(checkpoint, handled, last)), Projected(defs, y, name, w, k);
    hide SystemLeads, InRun, Projected, Kept, Select, NextBatch;
    var s1 := [StartRun(r, name, certificate), Run(r, LockCheckpoint)];
    LeadsJoin(h, defs, y, s1, y2, [Run(r, ReadBatch(k))], y3);
    LeadsJoin(h, defs, y, s1 + [Run(r, ReadBatch(k))], y3, [Run(r, Process(succeeds))], y4);
    LeadsJoin(h, defs, y, s1 + [Run(r, ReadBatch(k))] + [Run(r, Process(succeeds))], y4, [Run(r, CommitRun)], y5);
    assert s1 + [Run(r, ReadBatch(k))] + [Run(r, Process(succeeds))] + [Run(r, CommitRun)] ==
           ProjectionRun(r, name, certificate, k, succeeds);
  }

  /** A run in which the handler throws at an event of the batch leaves everything as it was. */
  lemma FailedRunChangesNothing(h: Hash, defs: Projections, y: System, r: nat, name: string, certificate: nat, k: nat,
                                succeeds: Handler)
    requires r !in y.runners && name !in y.rowLocks && certificate < |y.store.returned| && k > 0
    requires !Handles(y, defs(name), NextBatch(y, name, y.store.returned[certificate], k), succeeds)
    ensures SystemLeads(h, defs, y, ProjectionRun(r, name, certificate, k, succeeds)[..4], y)
  {
    var w, checkpoint := y.store.returned[certificate], Checkpoint(y, name);
    var rows := NextBatch(y, name, w, k);
    StartLeads(h, defs, y, r, name, certificate);
    ReadLeads(h, defs, y, r, name, w, k);
    FailLeads(h, defs, y, r, name, w, checkpoint, rows, succeeds);
    var y2, y3 := InRun(y, r, name, AtCheckpoint(w, checkpoint)), InRun(y, r, name, Loaded(w, checkpoint, rows));
    hide SystemLeads, InRun, Select, NextBatch;
    var s1 := [StartRun(r, name, certificate), Run(r, LockCheckpoint)];
    LeadsJoin(h, defs, y, s1, y2, [Run(r, ReadBatch(k))], y3);
    LeadsJoin(h, defs, y, s1 + [Run(r, ReadBatch(k))], y3, [Run(r, Process(succeeds))], y);
    assert s1 + [Run(r, ReadBatch(k))] + [Run(r, Process(succeeds))] ==
           ProjectionRun(r, name, certificate, k, succeeds)[..4];
  }

  lemma FailLeads(h: Hash, defs: Projections, y: System, r: nat, name: string, w: nat, checkpoint: nat, rows: seq<nat>,
                  succeeds: Handler)
    requires r !in y.runners && name !in y.rowLocks && !Handles(y, defs(name), rows, succeeds)
    ensures SystemLeads(h, defs, InRun(y, r, name, Loaded(w, checkpoint, rows)), [Run(r, Process(succeeds))], y)
  {
    hide SystemLeads;
    var y1 := InRun(y, r, name, Loaded(w, checkpoint, rows));
    var p :| p in rows && p in y.store.committed && defs(name)(y.store.committed[p]) && !succeeds(p);
    var i :| 0 <= i < |rows| && rows[i] == p;
    assert !AllHandled(y.store.committed, defs(name), succeeds, rows);
    assert y1.runners - {r} == y.runners && y1.rowLocks - {name} == y.rowLocks;
    LeadsOne(h, defs, y1, Run(r, Process(succeeds)), y);
  }

  lemma BatchIsNext(y: System, name: string, w: nat, k: nat)
    requires k > 0
    ensures var rows, checkpoint := NextBatch(y, name, w, k), Checkpoint(y, name);
            checkpoint <= LastOf(rows, checkpoint) &&
            rows == Select(y.store.committed, EveryRow(), checkpoint, LastOf(rows, checkpoint))
  {
    BatchLoaded(y.store.committed, Checkpoint(y, name), w, k);
  }

  /** How many events are committed in (lo, hi]. */
  function Between(t: Table, lo: int, hi: int): nat {
    |Select(t, EveryRow(), lo, hi)|
  }

  function Min(a: nat, b: nat): nat {
    if a <= b then a else b
  }

  /** One run from any reachable state: the checkpoint passes as many committed events as the batch
      takes, or all up to the certificate if they are fewer, and stands on the last of them;
      exactly those of them that are not ignored have been handled now. */
  lemma ProjectionProgress(h: Hash, defs: Projections, y: System, r: nat, name: string, certificate: nat, k: nat,
                           succeeds: Handler)
    requires SystemReachable(h, defs, y) && r !in y.runners && name !in y.rowLocks && certificate < |y.store.returned|
    requires k > 0 && Handles(y, defs(name), NextBatch(y, name, y.store.returned[certificate], k), succeeds)
    ensures SystemRuns(h, defs, y, ProjectionRun(r, name, certificate, k, succeeds))
    ensures var y' := SystemAfter(h, defs, y, ProjectionRun(r, name, certificate, k, succeeds));
            var t, w, before, after := y.store.committed, y.store.returned[certificate], Checkpoint(y, name), Checkpoint(y', name);
            y'.store == y.store && y'.runners == y.runners && y'.rowLocks == y.rowLocks &&
            before <= after && (after == before || (after in t && after <= w)) &&
            Between(t, before, after) == Min(k, Between(t, before, w)) &&
            forall p :: p in Applied(y', name) <==>
              p in Applied(y, name) || (p in t && before < p <= after && defs(name)(t[p]))
  {
    RunMovesCheckpoint(h, defs, y, r, name, certificate, k, succeeds);
    var t, w, before := y.store.committed, y.store.returned[certificate], Checkpoint(y, name);
    var batch := NextBatch(y, name, w, k);
    BatchIsNext(y, name, w, k);
    SelectMembers(t, EveryRow(), before, w);
    var after: nat := LastOf(batch, before);
    assert batch != [] ==> after in batch && after in Select(t, EveryRow(), before, w);
    SelectMembers(t, defs(name), before, after);
    hide Select, SystemReachable, SystemRuns, SystemAfter;
  }

  /** While the store rests, runs can be repeated until no committed event is left between the
      checkpoint and the certificate, whatever the batch size. */
  lemma {:induction false} ProjectionCatchesUp(h: Hash, defs: Projections, y: System, r: nat, name: string, certificate: nat,
                                               k: nat, succeeds: Handler) returns (steps: seq<SystemStep>, y': System)
    requires r !in y.runners && name !in y.rowLocks && certificate < |y.store.returned| && k > 0
    requires Handles(y, defs(name), Select(y.store.committed, EveryRow(), Checkpoint(y, name), y.store.returned[certificate]), succeeds)
    ensures SystemLeads(h, defs, y, steps, y') && y'.store == y.store
    ensures Between(y.store.committed, Checkpoint(y', name), y.store.returned[certificate]) == 0
    ensures Applied(y', name) ==
              Applied(y, name) + Select(y.store.committed, defs(name), Checkpoint(y, name), Checkpoint(y', name))
    ensures Checkpoint(y, name) <= Checkpoint(y', name)
    decreases Between(y.store.committed, Checkpoint(y, name), y.store.returned[certificate])
  {
    var t, w, before := y.store.committed, y.store.returned[certificate], Checkpoint(y, name);
    assert Select(t, defs(name), before, before) == [];
    HandlesBatch(y, defs(name), name, w, k, succeeds);
    hide SystemLeads, Select, Handles, Projected, Checkpoint, Applied, ProjectionRun, Between, NextBatch;
    if Between(t, before, w) == 0 {
      LeadsNowhere(h, defs, y);
      steps, y' := [], y;
      return;
    }
    RunMovesCheckpoint(h, defs, y, r, name, certificate, k, succeeds);
    var y1 := Projected(defs, y, name, w, k);
    ProjectedFacts(defs, y, name, w, k);
    FewerToHandle(y, y1, defs(name), before, Checkpoint(y1, name), w, succeeds);
    var more;
    more, y' := ProjectionCatchesUp(h, defs, y1, r, name, certificate, k, succeeds);
    steps := ProjectionRun(r, name, certificate, k, succeeds) + more;
    LeadsJoin(h, defs, y, ProjectionRun(r, name, certificate, k, succeeds), y1, more, y');
    AppliedJoin(t, defs(name), before, Checkpoint(y1, name), Checkpoint(y', name), Applied(y, name));
  }

  lemma AppliedJoin(t: Table, keep: Filter, lo: nat, mid: nat, hi: nat, done: seq<nat>)
    requires lo <= mid <= hi
    ensures done + Select(t, keep, lo, mid) + Select(t, keep, mid, hi) == done + Select(t, keep, lo, hi)
  {
    SelectSplit(t, keep, lo, mid, hi);
  }

  lemma ProjectedFacts(defs: Projections, y: System, name: string, w: nat, k: nat)
    requires Between(y.store.committed, Checkpoint(y, name), w) > 0 && k > 0
    ensures var t, y1 := y.store.committed, Projected(defs, y, name, w, k);
            y1.store == y.store && y1.runners == y.runners && y1.rowLocks == y.rowLocks &&
            Checkpoint(y, name) <= Checkpoint(y1, name) &&
            Between(t, Checkpoint(y1, name), w) < Between(t, Checkpoint(y, name), w) &&
            Applied(y1, name) == Applied(y, name) + Select(t, defs(name), Checkpoint(y, name), Checkpoint(y1, name))
  {
    hide Select;
    BatchIsRange(y.store.committed, EveryRow(), Checkpoint(y, name), w, |NextBatch(y, name, w, k)|);
  }

  lemma FewerToHandle(y: System, y': System, keep: Filter, lo: nat, mid: nat, hi: nat, succeeds: Handler)
    requires Handles(y, keep, Select(y.store.committed, EveryRow(), lo, hi), succeeds) && y'.store == y.store && lo <= mid
    ensures Handles(y', keep, Select(y.store.committed, EveryRow(), mid, hi), succeeds)
  {
    SelectMembers(y.store.committed, EveryRow(), lo, hi);
    SelectMembers(y.store.committed, EveryRow(), mid, hi);
  }

  lemma HandlesBatch(y: System, keep: Filter, name: string, w: nat, k: nat, succeeds: Handler)
    requires Handles(y, keep, Select(y.store.committed, EveryRow(), Checkpoint(y, name), w), succeeds)
    ensures Handles(y, keep, NextBatch(y, name, w, k), succeeds)
  {
  }

  // ---- One batch of a subscription ----

  function Yields(id: nat, k: nat): seq<SystemStep> {
    seq(k, i => Pump(id, Yield))
  }

  /** The events the next batch yields. */
  function NextYields(y: System, id: nat, w: nat): seq<nat>
    requires id in y.subscribers
  {
    var s := y.subscribers[id];
    Take(Select(y.store.committed, s.filter, s.cursor, w), s.batchSize)
  }

  /** One pump: the poll, and with a certificate above the cursor its events and the end. */
  function PumpSteps(y: System, id: nat, certificate: nat): seq<SystemStep>
    requires id in y.subscribers && certificate < |y.store.returned|
  {
    var w := y.store.returned[certificate];
    [Pump(id, Poll(certificate))] +
    if w <= y.subscribers[id].cursor then [] else Yields(id, |NextYields(y, id, w)|) + [Pump(id, EndBatch)]
  }

  function Pumped(y: System, id: nat, w: nat): System
    requires id in y.subscribers
  {
    var s, batch := y.subscribers[id], NextYields(y, id, w);
    y.(subscribers := y.subscribers[id := s.(emitted := s.emitted + batch, cursor := LastOf(batch, s.cursor))])
  }

  /** A subscriber in the middle of a batch of which the first k events are out. */
  function InBatch(y: System, id: nat, w: nat, batch: seq<nat>, k: nat): System
    requires id in y.subscribers && k <= |batch|
  {
    var s := y.subscribers[id];
    y.(subscribers := y.subscribers[id := s.(emitted := s.emitted + batch[..k],
                                            phase := Emitting(w, LastOf(batch[..k], s.cursor), batch[k..]))])
  }

  lemma {:induction false} YieldsLead(h: Hash, defs: Projections, y: System, id: nat, w: nat, batch: seq<nat>, k: nat)
    requires id in y.subscribers && k <= |batch|
    ensures SystemLeads(h, defs, InBatch(y, id, w, batch, 0), Yields(id, k), InBatch(y, id, w, batch, k))
  {
    if k == 0 {
      LeadsNowhere(h, defs, InBatch(y, id, w, batch, 0));
    } else {
      hide SystemLeads;
      YieldsLead(h, defs, y, id, w, batch, k - 1);
      var y1, y2 := InBatch(y, id, w, batch, k - 1), InBatch(y, id, w, batch, k);
      assert batch[k - 1..][0] == batch[k - 1] && batch[k - 1..][1..] == batch[k..];
      assert batch[..k - 1] + [batch[k - 1]] == batch[..k];
      assert y.subscribers[id].emitted + batch[..k - 1] + [batch[k - 1]] == y.subscribers[id].emitted + batch[..k];
      LeadsOne(h, defs, y1, Pump(id, Yield), y2);
      LeadsJoin(h, defs, InBatch(y, id, w, batch, 0), Yields(id, k - 1), y1, [Pump(id, Yield)], y2);
      assert Yields(id, k - 1) + [Pump(id, Yield)] == Yields(id, k);
    }
  }

  /** A pump yields the first batchSize matching events above the cursor, up to the certificate,
      whatever else is going on. */
  lemma PumpYields(h: Hash, defs: Projections, y: System, id: nat, certificate: nat)
    requires id in y.subscribers && y.subscribers[id].phase.Polling? && certificate < |y.store.returned|
    ensures SystemLeads(h, defs, y, PumpSteps(y, id, certificate), Pumped(y, id, y.store.returned[certificate]))
  {
    var s, w := y.subscribers[id], y.store.returned[certificate];
    var batch, y' := NextYields(y, id, w), Pumped(y, id, w);
    if w <= s.cursor {
      assert s.emitted + [] == s.emitted;
      assert y'.subscribers == y.subscribers[id := s];
      LeadsOne(h, defs, y, Pump(id, Poll(certificate)), y');
      assert [Pump(id, Poll(certificate))] + [] == [Pump(id, Poll(certificate))];
    } else {
      hide SystemLeads, Select;
      var y1, y2 := InBatch(y, id, w, batch, 0), InBatch(y, id, w, batch, |batch|);
      assert s.emitted + batch[..0] == s.emitted && batch[0..] == batch && batch[..|batch|] == batch;
      LeadsOne(h, defs, y, Pump(id, Poll(certificate)), y1);
      YieldsLead(h, defs, y, id, w, batch, |batch|);
      assert y2.subscribers[id := y'.subscribers[id]] == y'.subscribers;
      LeadsOne(h, defs, y2, Pump(id, EndBatch), y');
      LeadsJoin(h, defs, y, [Pump(id, Poll(certificate))], y1, Yields(id, |batch|), y2);
      LeadsJoin(h, defs, y, [Pump(id, Poll(certificate))] + Yields(id, |batch|), y2, [Pump(id, EndBatch)], y');
      assert [Pump(id, Poll(certificate))] + Yields(id, |batch|) + [Pump(id, EndBatch)] == PumpSteps(y, id, certificate);
    }
  }

  lemma PumpedFacts(y: System, id: nat, w: nat)
    requires id in y.subscribers && y.subscribers[id].batchSize > 0
    requires Select(y.store.committed, y.subscribers[id].filter, y.subscribers[id].cursor, w) != []
    ensures var t, y1, s := y.store.committed, Pumped(y, id, w), y.subscribers[id];
            id in y1.subscribers &&
            var s1 := y1.subscribers[id];
            y1.store == y.store && s1 == s.(emitted := s1.emitted, cursor := s1.cursor) &&
            |Select(t, s.filter, s1.cursor, w)| < |Select(t, s.filter, s.cursor, w)| &&
            s1.emitted + Select(t, s.filter, s1.cursor, w) == s.emitted + Select(t, s.filter, s.cursor, w)
  {
    hide Select;
    BatchIsRange(y.store.committed, y.subscribers[id].filter, y.subscribers[id].cursor, w, |NextYields(y, id, w)|);
  }

  /** While the store rests, pumps can be repeated until every matching event between the lower
      bound and the certificate has been emitted, whatever the batch size. */
  lemma {:induction false} SubscriptionCatchesUp(h: Hash, defs: Projections, y: System, id: nat, certificate: nat)
    returns (steps: seq<SystemStep>, y': System)
    requires id in y.subscribers && y.subscribers[id].phase.Polling? && certificate < |y.store.returned|
    requires y.subscribers[id].batchSize > 0
    ensures SystemLeads(h, defs, y, steps, y') && y'.store == y.store && id in y'.subscribers
    ensures var s, s' := y.subscribers[id], y'.subscribers[id];
            s'.emitted == s.emitted + Select(y.store.committed, s.filter, s.cursor, y.store.returned[certificate])
    decreases |Select(y.store.committed, y.subscribers[id].filter, y.subscribers[id].cursor, y.store.returned[certificate])|
  {
    hide SystemLeads, Select, PumpSteps, NextYields, Pumped;
    var t, s, w := y.store.committed, y.subscribers[id], y.store.returned[certificate];
    if Select(t, s.filter, s.cursor, w) == [] {
      LeadsNowhere(h, defs, y);
      steps, y' := [], y;
      return;
    }
    PumpYields(h, defs, y, id, certificate);
    PumpedFacts(y, id, w);
    var y1 := Pumped(y, id, w);
    var more;
    more, y' := SubscriptionCatchesUp(h, defs, y1, id, certificate);
    steps := PumpSteps(y, id, certificate) + more;
    LeadsJoin(h, defs, y, PumpSteps(y, id, certificate), y1, more, y');
  }

  // ---- Nothing is left behind ----

  /** From every reachable state in which a projection's checkpoint is free, runs lead to a state in
      which every committed event up to the certificate that it does not ignore has been handled. */
  lemma ProjectionReachesCertificate(h: Hash, defs: Projections, y: System, r: nat, name: string, certificate: nat, k: nat,
                                     succeeds: Handler) returns (steps: seq<SystemStep>, y': System)
    requires SystemReachable(h, defs, y) && r !in y.runners && name !in y.rowLocks && certificate < |y.store.returned|
    requires k > 0
    requires Handles(y, defs(name), Select(y.store.committed, EveryRow(), Checkpoint(y, name), y.store.returned[certificate]), succeeds)
    ensures SystemLeads(h, defs, y, steps, y') && y'.store == y.store
    ensures forall p :: p in y.store.committed && 1 <= p <= y.store.returned[certificate] && defs(name)(y.store.committed[p]) ==>
              p in Applied(y', name)
  {
    ProjectionExactlyOnce(h, defs, y, name);
    steps, y' := ProjectionCatchesUp(h, defs, y, r, name, certificate, k, succeeds);
    hide SystemReachable, SystemRuns, SystemAfter, Handles, Select;
    SelectMembers(y.store.committed, EveryRow(), Checkpoint(y', name), y.store.returned[certificate]);
    SelectMembers(y.store.committed, defs(name), Checkpoint(y, name), Checkpoint(y', name));
  }

  /** From every reachable state a subscriber between two batches comes to have emitted every
      committed matching event from its lower bound up to the certificate. */
  lemma SubscriberReachesCertificate(h: Hash, defs: Projections, y: System, id: nat, certificate: nat)
    returns (steps: seq<SystemStep>, y': System)
    requires SystemReachable(h, defs, y) && id in y.subscribers && y.subscribers[id].phase.Polling?
    requires certificate < |y.store.returned|
    ensures SystemLeads(h, defs, y, steps, y') && y'.store == y.store
    ensures var s, t := y.subscribers[id], y.store.committed;
            id in y'.subscribers &&
            forall p :: p in t && 1 <= p <= y.store.returned[certificate] && WithinBound(s.bound, p) && s.filter(t[p]) ==>
              p in y'.subscribers[id].emitted
  {
    var s, t := y.subscribers[id], y.store.committed;
    assert SystemRuns(h, defs, y, []) && SystemAfter(h, defs, y, []) == y;
    SubscriptionGapFree(h, defs, y, [], id);
    BatchesArePositive(h, defs, y, id);
    steps, y' := SubscriptionCatchesUp(h, defs, y, id, certificate);
    hide SystemReachable, SystemRuns, SystemAfter, Select;
    SelectMembers(t, s.filter, s.cursor, y.store.returned[certificate]);
  }

  /** A subscription from its start: whatever the filter, the lower bound and the batch size, once
      it has caught up it has emitted exactly the committed matching events from the bound up to the
      certificate, ascending. */
  lemma SubscriptionReadsAll(h: Hash, defs: Projections, y: System, id: nat, filter: Filter, bound: LowerBound, batchSize: nat,
                             certificate: nat) returns (steps: seq<SystemStep>, y': System)
    requires id !in y.subscribers && batchSize > 0 && certificate < |y.store.returned|
    ensures SystemLeads(h, defs, y, [Subscribe(id, filter, bound, batchSize)] + steps, y')
    ensures y'.store == y.store && id in y'.subscribers && Ascending(y'.subscribers[id].emitted)
    ensures forall p :: p in y'.subscribers[id].emitted <==>
              p in y.store.committed && 1 <= p <= y.store.returned[certificate] && WithinBound(bound, p) &&
              filter(y.store.committed[p])
  {
    var y1 := SetSubscriber(y, id, Subscriber(filter, bound, StartCursor(bound), batchSize, StartCursor(bound), [], Polling));
    LeadsOne(h, defs, y, Subscribe(id, filter, bound, batchSize), y1);
    steps, y' := SubscriptionCatchesUp(h, defs, y1, id, certificate);
    LeadsJoin(h, defs, y, [Subscribe(id, filter, bound, batchSize)], y1, steps, y');
    SelectMembers(y.store.committed, filter, StartCursor(bound), y.store.returned[certificate]);
    SelectAscending(y.store.committed, filter, StartCursor(bound), y.store.returned[certificate]);
    hide SystemRuns, SystemAfter, Select;
    assert y'.subscribers[id].emitted == Select(y.store.committed, filter, StartCursor(bound), y.store.returned[certificate]);
  }

  lemma BatchesArePositive(h: Hash, defs: Projections, y: System, id: nat)
    requires SystemReachable(h, defs, y) && id in y.subscribers
    ensures y.subscribers[id].batchSize > 0
  {
    SystemReachableInv(h, defs, y);
    hide SystemReachable;
    assert SubscriberOk(y.store.committed, y.store.watermark, y.subscribers[id]);
  }
}
