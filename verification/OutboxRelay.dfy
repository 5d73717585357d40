/** Relays competing for the outbox: each polls a batch with FOR UPDATE SKIP LOCKED, hands it
    to its handler, marks it and commits, all in one transaction. */
module OutboxRelay {
  import opened Options
  import opened Sequences
  import opened Enumeration

  /** A relay's transaction and the rows it has locked. */
  datatype Phase = Polled | Handled | Marked

  datatype Run = Run(phase: Phase, batch: seq<int>)

  /** The committed outbox by entry id (pending has no processed_at), the open transactions, and
      the batches committed so far in order.  No id is above bound. */
  datatype State = State(bound: nat, pending: set<int>, processed: set<int>, deleted: set<int>,
                         runs: map<nat, Run>, committed: seq<seq<int>>)

  function Init(): State {
    State(0, {}, {}, {}, map[], [])
  }

  function Issued(s: State): set<int> {
    s.pending + s.processed + s.deleted
  }

  function Locked(runs: map<nat, Run>): set<int> {
    set r, id | r in runs && id in runs[r].batch :: id
  }

  /** pollOutbox: the first entries, in id order, that are pending and not locked. */
  function Batch(pending: set<int>, locked: set<int>, bound: nat, limit: nat): seq<int> {
    Take(Enum(pending - locked, 0, bound), limit)
  }

  datatype Step =
    | Insert(ids: set<int>, bound: nat)          // an append commits its entries; ids may fill gaps below bound
    | Poll(r: nat, limit: nat)
    | Handle(r: nat, succeeds: bool)
    | Mark(r: nat)
    | Commit(r: nat)
    | Rollback(r: nat)
    | Cleanup(ids: set<int>)                     // cleanupOutbox deletes processed entries

  predicate InPhase(s: State, r: nat, phase: Phase) {
    r in s.runs && s.runs[r].phase == phase
  }

  predicate Enabled(s: State, a: Step) {
    match a
    case Insert(ids, bound) => ids !! Issued(s) && s.bound <= bound && forall id :: id in ids ==> 0 < id <= bound
    case Poll(r, limit) => r !in s.runs && limit > 0
    case Handle(r, _) => InPhase(s, r, Polled)
    case Mark(r) => InPhase(s, r, Handled)
    case Commit(r) => InPhase(s, r, Marked)
    case Rollback(r) => r in s.runs
    case Cleanup(ids) => ids <= s.processed
  }

  function Ended(s: State, r: nat): State {
    s.(runs := s.runs - {r})
  }

  function Members(batch: seq<int>): set<int> {
    set id | id in batch
  }

  function Committed(s: State, r: nat): State
    requires r in s.runs
  {
    var batch := s.runs[r].batch;
    Ended(s, r).(pending := s.pending - Members(batch), processed := s.processed + Members(batch),
                 committed := s.committed + [batch])
  }

  /** An empty batch commits at once and leaves no trace. */
  function DoPoll(s: State, r: nat, limit: nat): State {
    var batch := Batch(s.pending, Locked(s.runs), s.bound, limit);
    if batch == [] then s else s.(runs := s.runs[r := Run(Polled, batch)])
  }

  function Apply(s: State, a: Step): State
    requires Enabled(s, a)
  {
    match a
    case Insert(ids, bound) => s.(pending := s.pending + ids, bound := bound)
    case Poll(r, limit) => DoPoll(s, r, limit)
    case Handle(r, succeeds) => if succeeds then s.(runs := s.runs[r := s.runs[r].(phase := Handled)]) else Ended(s, r)
    case Mark(r) => s.(runs := s.runs[r := s.runs[r].(phase := Marked)])
    case Commit(r) => Committed(s, r)
    case Rollback(r) => Ended(s, r)
    case Cleanup(ids) => s.(processed := s.processed - ids, deleted := s.deleted + ids)
  }

  predicate Runs(s: State, steps: seq<Step>)
    decreases |steps|
  {
    steps == [] || (Enabled(s, steps[0]) && Runs(Apply(s, steps[0]), steps[1..]))
  }

  function After(s: State, steps: seq<Step>): State
    requires Runs(s, steps)
    decreases |steps|
  {
    if steps == [] then s else After(Apply(s, steps[0]), steps[1..])
  }

  ghost predicate IsReachable(s: State) {
    exists steps :: Runs(Init(), steps) && After(Init(), steps) == s
  }

  // ---- The invariant ----

  /** All committed batches, end to end. */
  function Flat(batches: seq<seq<int>>): seq<int> {
    if batches == [] then [] else Flat(batches[..|batches| - 1]) + batches[|batches| - 1]
  }

  ghost predicate RunOk(s: State, run: Run) {
    run.batch != [] && NoDuplicates(run.batch) && forall id :: id in run.batch ==> id in s.pending
  }

  ghost predicate RunsOk(s: State) {
    && (forall r :: r in s.runs ==> RunOk(s, s.runs[r]))
    && (forall r, q, id :: r in s.runs && q in s.runs && r != q && id in s.runs[r].batch ==> id !in s.runs[q].batch)
  }

  ghost predicate EntriesOk(s: State) {
    && s.pending !! s.processed && s.pending !! s.deleted && s.processed !! s.deleted
    && (forall id :: id in s.pending ==> 0 < id <= s.bound)
    && NoDuplicates(Flat(s.committed))
    && (forall id :: id in Flat(s.committed) <==> id in s.processed || id in s.deleted)
  }

  ghost predicate Inv(s: State) {
    EntriesOk(s) && RunsOk(s)
  }

  lemma BatchFacts(pending: set<int>, locked: set<int>, bound: nat, limit: nat)
    ensures NoDuplicates(Batch(pending, locked, bound, limit))
    ensures forall id :: id in Batch(pending, locked, bound, limit) ==> id in pending && id !in locked
  {
    EnumMembers(pending - locked, 0, bound);
    EnumAscending(pending - locked, 0, bound);
  }

  lemma PollKeepsInv(s: State, r: nat, limit: nat)
    requires Inv(s) && r !in s.runs
    ensures Inv(DoPoll(s, r, limit))
  {
    hide Batch, NoDuplicates, EntriesOk;
    BatchFacts(s.pending, Locked(s.runs), s.bound, limit);
    EntriesFrame(s, DoPoll(s, r, limit));
    var s' := DoPoll(s, r, limit);
    forall q, id | q in s.runs && id in s.runs[q].batch ensures id in Locked(s.runs) {
    }
  }

  lemma EntriesFrame(s: State, s': State)
    requires EntriesOk(s) && s' == s.(runs := s'.runs)
    ensures EntriesOk(s')
  {
  }

  lemma FlatSnoc(batches: seq<seq<int>>, batch: seq<int>)
    ensures Flat(batches + [batch]) == Flat(batches) + batch
  {
    assert (batches + [batch])[..|batches|] == batches;
  }

  lemma NoDuplicatesConcat(a: seq<int>, b: seq<int>)
    requires NoDuplicates(a) && NoDuplicates(b) && forall id :: id in a ==> id !in b
    ensures NoDuplicates(a + b)
  {
    forall i, k | 0 <= i < k < |a + b| ensures (a + b)[i] != (a + b)[k] {
      if i < |a| <= k {
        assert a[i] in a && b[k - |a|] in b;
      }
    }
  }

  lemma CommitKeepsInv(s: State, r: nat)
    requires Inv(s) && r in s.runs
    ensures Inv(Committed(s, r))
  {
    hide NoDuplicates;
    var s', batch := Committed(s, r), s.runs[r].batch;
    assert RunOk(s, s.runs[r]);
    FlatSnoc(s.committed, batch);
    NoDuplicatesConcat(Flat(s.committed), batch);
    forall q | q in s'.runs ensures RunOk(s', s'.runs[q]) {
      assert RunOk(s, s.runs[q]);
      assert forall id :: id in s.runs[q].batch ==> id !in batch;
    }
    assert forall id :: id in Flat(s'.committed) <==> id in Flat(s.committed) || id in batch;
    forall id | id in Members(batch) ensures id in s.pending && id !in s.deleted {
      assert id in batch;
    }
  }

  lemma StepKeepsInv(s: State, a: Step)
    requires Inv(s) && Enabled(s, a)
    ensures Inv(Apply(s, a))
  {
    hide NoDuplicates;
    match a
    case Poll(r, limit) => PollKeepsInv(s, r, limit);
    case Commit(r) => CommitKeepsInv(s, r);
    case _ =>
  }

  lemma {:induction false} RunKeepsInv(s: State, steps: seq<Step>)
    requires Inv(s) && Runs(s, steps)
    ensures Inv(After(s, steps))
    decreases |steps|
  {
    hide Inv, Enabled, Apply;
    if steps != [] {
      StepKeepsInv(s, steps[0]);
      RunKeepsInv(Apply(s, steps[0]), steps[1..]);
    }
  }

  lemma ReachableInv(s: State)
    requires IsReachable(s)
    ensures Inv(s)
  {
    assert Inv(Init());
    hide Inv, Runs, After, Init;
    var steps :| Runs(Init(), steps) && After(Init(), steps) == s;
    RunKeepsInv(Init(), steps);
  }

  // ---- What the relays guarantee ----

  /** Conservation: over all interleavings an entry is in one committed batch, once, or it is
      still pending; and open transactions hold disjoint batches of pending entries. */
  lemma EachEntryMarkedOnce(s: State)
    requires IsReachable(s)
    ensures NoDuplicates(Flat(s.committed))
    ensures forall id :: id in Issued(s) ==> (id in s.pending <==> id !in Flat(s.committed))
    ensures forall r, id :: r in s.runs && id in s.runs[r].batch ==> id in s.pending
    ensures forall r, q, id :: r in s.runs && q in s.runs && r != q && id in s.runs[r].batch ==> id !in s.runs[q].batch
  {
    ReachableInv(s);
    assert forall r :: r in s.runs ==> RunOk(s, s.runs[r]);
  }

  /** A poll takes pending, unlocked entries in ascending order, no more than its limit; and nothing
      is skipped over: one that it leaves out comes behind a full batch. */
  lemma PollTakesTheFirst(s: State, limit: nat, id: int)
    requires IsReachable(s) && id in s.pending && id !in Locked(s.runs)
    ensures var batch := Batch(s.pending, Locked(s.runs), s.bound, limit);
            |batch| <= limit && Ascending(batch) &&
            (forall k :: k in batch ==> k in s.pending && k !in Locked(s.runs)) &&
            (id !in batch ==> |batch| == limit && forall i :: 0 <= i < |batch| ==> batch[i] < id)
  {
    ReachableInv(s);
    BatchFacts(s.pending, Locked(s.runs), s.bound, limit);
    var free := s.pending - Locked(s.runs);
    EnumMembers(free, 0, s.bound);
    EnumAscending(free, 0, s.bound);
    var all := Enum(free, 0, s.bound);
    assert id in all;
    var k :| 0 <= k < |all| && all[k] == id;
    assert k < limit ==> Take(all, limit)[k] == id;
  }

  // ---- One relay's run ----

  lemma RunsCons(s: State, a: Step, rest: seq<Step>)
    requires Enabled(s, a) && Runs(Apply(s, a), rest)
    ensures Runs(s, [a] + rest) && After(s, [a] + rest) == After(Apply(s, a), rest)
  {
    hide Enabled, Apply;
    assert ([a] + rest)[1..] == rest;
  }

  /** A run whose handler succeeds marks exactly the batch it polled, whatever other relays hold
      meanwhile; one whose handler fails leaves everything as it was. */
  lemma RelayRun(s: State, r: nat, limit: nat)
    requires r !in s.runs && limit > 0 && Batch(s.pending, Locked(s.runs), s.bound, limit) != []
    ensures var batch := Batch(s.pending, Locked(s.runs), s.bound, limit);
            var steps := [Poll(r, limit)] + ([Handle(r, true)] + ([Mark(r)] + ([Commit(r)] + [])));
            Runs(s, steps) &&
            After(s, steps) == s.(pending := s.pending - Members(batch), processed := s.processed + Members(batch),
                                  committed := s.committed + [batch])
    ensures var steps := [Poll(r, limit)] + ([Handle(r, false)] + []);
            Runs(s, steps) && After(s, steps) == s
  {
    hide Batch, Members;
    var s1 := Apply(s, Poll(r, limit));
    assert s1.runs - {r} == s.runs;
    RunsCons(s1, Handle(r, false), []);
    RunsCons(s, Poll(r, limit), [Handle(r, false)] + []);
    var s2 := Apply(s1, Handle(r, true));
    var s3 := Apply(s2, Mark(r));
    assert s3.runs - {r} == s.runs;
    RunsCons(s3, Commit(r), []);
    RunsCons(s2, Mark(r), [Commit(r)] + []);
    RunsCons(s1, Handle(r, true), [Mark(r)] + ([Commit(r)] + []));
    RunsCons(s, Poll(r, limit), [Handle(r, true)] + ([Mark(r)] + ([Commit(r)] + [])));
  }

  /** In this run the handler of some relay succeeded on the batch. */
  ghost predicate WasHandled(s: State, steps: seq<Step>, batch: seq<int>)
    requires Runs(s, steps)
    decreases |steps|
  {
    steps != [] &&
    ((steps[0].Handle? && steps[0].succeeds && s.runs[steps[0].r].batch == batch) ||
     WasHandled(Apply(s, steps[0]), steps[1..], batch))
  }

  /** Nothing is marked unhandled: every batch committed in a run from the empty outbox is one that
      a handler has succeeded on. */
  lemma CommittedWasHandled(steps: seq<Step>, batch: seq<int>)
    requires Runs(Init(), steps) && batch in After(Init(), steps).committed
    ensures WasHandled(Init(), steps, batch)
  {
    HandledBefore(Init(), steps, batch);
  }

  lemma {:induction false} HandledBefore(s: State, steps: seq<Step>, batch: seq<int>)
    requires Runs(s, steps)
    ensures batch in After(s, steps).committed ==> WasHandled(s, steps, batch) || batch in s.committed || InHand(s, batch)
    ensures InHand(After(s, steps), batch) ==> WasHandled(s, steps, batch) || InHand(s, batch)
    decreases |steps|
  {
    if steps != [] {
      StepHandled(s, steps[0], batch);
      hide Enabled, Apply, InHand;
      HandledBefore(Apply(s, steps[0]), steps[1..], batch);
    }
  }

  /** A running relay whose handler has succeeded holds the batch. */
  ghost predicate InHand(s: State, batch: seq<int>) {
    exists r :: r in s.runs && s.runs[r].phase != Polled && s.runs[r].batch == batch
  }

  lemma StepHandled(s: State, a: Step, batch: seq<int>)
    requires Enabled(s, a)
    ensures InHand(Apply(s, a), batch) ==>
              InHand(s, batch) || (a.Handle? && a.succeeds && s.runs[a.r].batch == batch)
    ensures batch in Apply(s, a).committed ==> batch in s.committed || InHand(s, batch)
  {
    hide Batch, Members, Issued;
    if a.Commit? {
      assert InHand(s, s.runs[a.r].batch);
    }
  }

  // ---- Later states ----

  /** A failing handler, or any rollback, leaves every entry as it was and its batch free to be
      polled again. */
  lemma FailureLeavesPending(s: State, r: nat)
    requires IsReachable(s) && r in s.runs
    ensures var s' := Ended(s, r);
            s'.pending == s.pending && s'.committed == s.committed &&
            forall id :: id in s.runs[r].batch ==> id in s'.pending && id !in Locked(s'.runs)
  {
    ReachableInv(s);
    assert RunOk(s, s.runs[r]);
  }

  /** Later states keep every committed batch and know every entry that was inserted; an entry
      leaves pending only into one of the new batches. */
  lemma CommittedGrows(s: State, steps: seq<Step>)
    requires IsReachable(s) && Runs(s, steps)
    ensures s.committed <= After(s, steps).committed
    ensures forall id :: id in Issued(s) || InsertedIn(steps, id) ==> id in Issued(After(s, steps))
    ensures forall id :: id in s.pending && id !in After(s, steps).pending ==>
              id in Flat(After(s, steps).committed) && id !in Flat(s.committed)
  {
    ReachableInv(s);
    RunGrows(s, steps);
  }

  ghost predicate InsertedIn(steps: seq<Step>, id: int) {
    exists i :: 0 <= i < |steps| && steps[i].Insert? && id in steps[i].ids
  }

  lemma InsertedFirst(steps: seq<Step>, id: int)
    requires steps != [] && InsertedIn(steps, id)
    ensures (steps[0].Insert? && id in steps[0].ids) || InsertedIn(steps[1..], id)
  {
    var i :| 0 <= i < |steps| && steps[i].Insert? && id in steps[i].ids;
    assert i > 0 ==> steps[1..][i - 1] == steps[i];
  }

  lemma {:induction false} RunGrows(s: State, steps: seq<Step>)
    requires Inv(s) && Runs(s, steps)
    ensures s.committed <= After(s, steps).committed
    ensures forall id :: id in Issued(s) || InsertedIn(steps, id) ==> id in Issued(After(s, steps))
    ensures forall id :: id in s.pending && id !in After(s, steps).pending ==>
              id in Flat(After(s, steps).committed) && id !in Flat(s.committed)
    decreases |steps|
  {
    RunKeepsInv(s, steps);
    if steps != [] {
      StepKeepsInv(s, steps[0]);
      IssuedGrows(s, steps[0]);
      forall id | InsertedIn(steps, id)
        ensures id in Issued(Apply(s, steps[0])) || InsertedIn(steps[1..], id)
      {
        InsertedFirst(steps, id);
      }
      hide Inv, Enabled, Apply, Issued, InsertedIn;
      RunGrows(Apply(s, steps[0]), steps[1..]);
    }
    LeftPending(s, After(s, steps));
  }

  lemma IssuedGrows(s: State, a: Step)
    requires Inv(s) && Enabled(s, a)
    ensures s.committed <= Apply(s, a).committed
    ensures forall id :: id in Issued(s) ==> id in Issued(Apply(s, a))
    ensures a.Insert? ==> forall id :: id in a.ids ==> id in Issued(Apply(s, a))
  {
    hide EntriesOk;
  }

  lemma LeftPending(s: State, s': State)
    requires Inv(s) && Inv(s') && forall id :: id in Issued(s) ==> id in Issued(s')
    ensures forall id :: id in s.pending && id !in s'.pending ==> id in Flat(s'.committed) && id !in Flat(s.committed)
  {
    hide RunsOk;
    forall id | id in s.pending && id !in s'.pending ensures id in Flat(s'.committed) && id !in Flat(s.committed) {
      assert id in Issued(s);
    }
  }

  /** The outbox table as one relay works on it. */
  class Outbox {
    var pending: set<int>
    var processed: set<int>
    var bound: nat

    /** markOutboxProcessed. */
    method MarkOutboxProcessed(ids: seq<int>)
      modifies this
      ensures pending == old(pending) - Members(ids) && bound == old(bound)
      ensures processed == old(processed) + (old(pending) * Members(ids))
    {
      if |ids| > 0 {
        var idStrings := Members(ids);
        processed := processed + (pending * idStrings);
        pending := pending - idStrings;
      }
    }

    /** processOutbox: the count of the batch it marked, 0 for an empty outbox, and an error
        with everything rolled back when the handler fails. */
    method ProcessOutbox(locked: set<int>, handler: seq<int> -> bool, limit: nat) returns (r: Result<nat>)
      modifies this
      ensures var batch := Batch(old(pending), locked, old(bound), limit);
              if batch == [] then r == Ok(0) && pending == old(pending) && processed == old(processed)
              else if handler(batch)
              then r == Ok(|batch|) && pending == old(pending) - Members(batch) &&
                   processed == old(processed) + Members(batch)
              else r.Error? && pending == old(pending) && processed == old(processed)
    {
      var entries := Batch(pending, locked, bound, limit);
      if |entries| == 0 {
        return Ok(0);
      }
      if !handler(entries) {
        return Error("handler failed");
      }
      BatchFacts(pending, locked, bound, limit);
      MarkOutboxProcessed(entries);
      r := Ok(|entries|);
    }
  }
}
