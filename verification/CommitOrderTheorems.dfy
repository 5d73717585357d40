/** What the protocol guarantees in every reachable state and over every run. */
module CommitOrderTheorems {
  import opened Options
  import opened Sequences
  import opened EventTable
  import opened OutboxInsert
  import opened CommitOrder
  import opened CommitOrderSafety
  import opened CommitOrderSteps
  import opened CommitOrderCertificates

  // ---- The invariant over runs ----

  lemma StepKeepsInv(h: Hash, s: State, a: Step)
    requires Inv(h, s) && Enabled(h, s, a)
    ensures Inv(h, Apply(h, s, a))
  {
    hide StoreInv, CertInv, AccountInv, ApplyWrite, WriteEnabled, ApplyCert, CertEnabled, Begun;
    match a
    case Begin =>
      BeginKeepsStore(h, s);
      BeginKeepsAccount(s);
      CertBegun(s);
    case Write(t, w) =>
      WriteKeepsStore(h, s, t, w);
      WriteKeepsCert(h, s, t, w);
      WriteKeepsAccount(h, s, t, w);
    case CertBegin(c) => OpeningKeepsInv(h, s, c);
    case Certify(c, k) => CertifyKeepsInv(h, s, c, k);
  }

  lemma InitInv(h: Hash)
    ensures Inv(h, Init())
  {
  }

  lemma {:induction false} RunKeepsInv(h: Hash, s: State, steps: seq<Step>)
    requires Inv(h, s) && Runs(h, s, steps)
    ensures Inv(h, After(h, s, steps))
    decreases |steps|
  {
    hide Inv, Enabled, Apply;
    if steps == [] {
    } else {
      StepKeepsInv(h, s, steps[0]);
      RunKeepsInv(h, Apply(h, s, steps[0]), steps[1..]);
    }
  }

  /** Every reachable state satisfies the invariant. */
  lemma ReachableInv(h: Hash, s: State)
    requires IsReachable(h, s)
    ensures Inv(h, s)
  {
    InitInv(h);
    hide Inv, Runs, After, Init;
    var steps :| Runs(h, Init(), steps) && After(h, Init(), steps) == s;
    RunKeepsInv(h, Init(), steps);
  }

  // ---- Watermark finality ----

  /** The later state certifies no less and agrees on everything certified before. */
  ghost predicate Advances(s: State, s': State) {
    && s.watermark <= s'.watermark
    && AgreeOn(s.committed, s'.committed, -1, s.watermark)
    && Extends(s.committed, s'.committed)
    && s.returned <= s'.returned
  }

  lemma CommitAdvances(s: State, t: nat)
    requires CertInv(s) && PositionInv(s) && t in s.txns
    ensures Advances(s, DoCommit(s, t))
  {
    hide CertOk;
  }

  lemma WriteAdvances(h: Hash, s: State, t: nat, w: WriteStep)
    requires Inv(h, s) && t in s.txns && WriteEnabled(h, s, t, w)
    ensures Advances(s, ApplyWrite(h, s, t, w))
  {
    hide StoreInv, CertInv, AccountInv, Quietly, WriteEnabled, Clashes, View, DoCommit;
    if w.Commit? {
      Positions(h, s);
      CommitAdvances(s, t);
    }
  }

  lemma StepAdvances(h: Hash, s: State, a: Step)
    requires Inv(h, s) && Enabled(h, s, a)
    ensures Advances(s, Apply(h, s, a))
  {
    match a
    case Begin =>
    case Write(t, w) =>
      hide Inv, WriteEnabled;
      WriteAdvances(h, s, t, w);
    case CertBegin(c) =>
    case Certify(c, k) => CertAdvances(h, s, c, k);
  }

  lemma CertAdvances(h: Hash, s: State, c: nat, k: CertStep)
    requires Inv(h, s) && c in s.certs && CertEnabled(s, c, k)
    ensures Advances(s, ApplyCert(s, c, k))
  {
    hide StoreInv;
    assert CertOk(s, c);
  }

  lemma {:induction false} RunAdvances(h: Hash, s: State, steps: seq<Step>)
    requires Inv(h, s) && Runs(h, s, steps)
    ensures Advances(s, After(h, s, steps))
    decreases |steps|
  {
    hide Inv, Enabled, Apply;
    if steps == [] {
    } else {
      var s1 := Apply(h, s, steps[0]);
      StepAdvances(h, s, steps[0]);
      StepKeepsInv(h, s, steps[0]);
      RunAdvances(h, s1, steps[1..]);
    }
  }

  /** Once a position is certified (returned to any caller, or stored), no continuation of
      the run, with any writers, rollbacks and certifiers, commits a row at or below it or
      changes one; the stored position never decreases. */
  lemma WatermarkFinality(h: Hash, s: State, later: seq<Step>)
    requires IsReachable(h, s) && Runs(h, s, later)
    ensures var s' := After(h, s, later);
            (forall i :: 0 <= i < |s.returned| ==> s.returned[i] <= s.watermark) &&
            s.watermark <= s'.watermark &&
            forall p :: p <= s.watermark ==>
              ((p in s.committed <==> p in s'.committed) && (p in s.committed ==> s.committed[p] == s'.committed[p]))
  {
    ReachableInv(h, s);
    RunAdvances(h, s, later);
    hide StoreInv, CertOk, AccountInv, IsReachable, Runs, After, Extends;
    assert AgreeOn(s.committed, After(h, s, later).committed, -1, s.watermark);
  }

  /** Values returned by completed certifications are in ascending order. */
  lemma CertificatesNeverDecrease(h: Hash, s: State, i: nat, j: nat)
    requires IsReachable(h, s) && i < j < |s.returned|
    ensures s.returned[i] <= s.returned[j]
  {
    ReachableInv(h, s);
    hide StoreInv, CertOk, AccountInv, IsReachable;
  }

  // ---- Progress of certification ----

  /** A lone certification attempt, statement by statement. */
  function CertifyAlone(c: nat): seq<Step> {
    [CertBegin(c)] + QuietRest(c)
  }

  function QuietRest(c: nat): seq<Step> {
    [Certify(c, TakeReader)] + ([Certify(c, TryFence(true))] + ([Certify(c, ReadSequence)] +
    ([Certify(c, ReadMaximum)] + ([Certify(c, SetSequence)] + ([Certify(c, Finish)] + [])))))
  }

  lemma RunsCons(h: Hash, s: State, a: Step, rest: seq<Step>)
    requires Enabled(h, s, a) && Runs(h, Apply(h, s, a), rest)
    ensures Runs(h, s, [a] + rest) && After(h, s, [a] + rest) == After(h, Apply(h, s, a), rest)
  {
    hide Enabled, Apply;
    assert ([a] + rest)[1..] == rest;
  }

  lemma One(h: Hash, s: State, c: nat, k: CertStep, rest: seq<Step>)
    requires c in s.certs && CertEnabled(s, c, k) && Runs(h, ApplyCert(s, c, k), rest)
    ensures Runs(h, s, [Certify(c, k)] + rest)
    ensures After(h, s, [Certify(c, k)] + rest) == After(h, ApplyCert(s, c, k), rest)
  {
    hide CertEnabled, ApplyCert, Runs, After;
    RunsCons(h, s, Certify(c, k), rest);
  }

  /** With no writer between reservation and commit, certification catches up completely:
      it returns the highest committed position and stores it. */
  lemma QuietCertification(h: Hash, s: State, c: nat)
    requires IsReachable(h, s) && c !in s.certs && s.reader == None
    requires forall t :: t in s.txns ==> !s.txns[t].fence
    ensures Runs(h, s, CertifyAlone(c))
    ensures var top := MaxPosition(s.committed, s.counter);
            After(h, s, CertifyAlone(c)) == s.(watermark := top, returned := s.returned + [top])
  {
    ReachableInv(h, s);
    hide IsReachable, Runs, After, StoreInv, CertInv, AccountInv, MaxPosition, QuietRest;
    QuietRun(h, s, s.(certs := s.certs[c := Waiting]), c);
    RunsCons(h, s, CertBegin(c), QuietRest(c));
  }

  lemma QuietRun(h: Hash, s: State, s1: State, c: nat)
    requires StoreInv(h, s) && CertInv(s) && c !in s.certs && s.reader == None
    requires forall t :: t in s.txns ==> !s.txns[t].fence
    requires s1 == s.(certs := s.certs[c := Waiting])
    ensures Runs(h, s1, QuietRest(c))
    ensures var top := MaxPosition(s.committed, s.counter);
            After(h, s1, QuietRest(c)) == s.(watermark := top, returned := s.returned + [top])
  {
    hide Runs, After, MaxPosition, StoreInv, QuietRest, CertOk, NonDecreasing;
    var top := MaxPosition(s.committed, s.counter);
    MaxAboveWatermark(h, s);
    assert s.exclusive == None;
    hide CertInv;
    var s2 := ApplyCert(s1, c, TakeReader);
    var s3 := ApplyCert(s2, c, TryFence(true));
    var s4 := ApplyCert(s3, c, ReadSequence);
    assert s4 == s.(certs := s.certs[c := ReadCached(true, s.watermark)], reader := Some(c), exclusive := Some(c));
    var s5, s6, s7 := QuietSecondHalf(s, s4, c);
    QuietChain(h, s1, s2, s3, s4, s5, s6, s7, c);
  }

  lemma QuietSecondHalf(s: State, s4: State, c: nat) returns (s5: State, s6: State, s7: State)
    requires c !in s.certs && s.reader == None && s.exclusive == None
    requires s.watermark <= MaxPosition(s.committed, s.counter)
    requires s4 == s.(certs := s.certs[c := ReadCached(true, s.watermark)], reader := Some(c), exclusive := Some(c))
    ensures c in s4.certs && CertEnabled(s4, c, ReadMaximum) && s5 == ApplyCert(s4, c, ReadMaximum)
    ensures c in s5.certs && CertEnabled(s5, c, SetSequence) && s6 == ApplyCert(s5, c, SetSequence)
    ensures c in s6.certs && CertEnabled(s6, c, Finish) && s7 == ApplyCert(s6, c, Finish)
    ensures var top := MaxPosition(s.committed, s.counter);
            s7 == s.(watermark := top, returned := s.returned + [top])
  {
    hide MaxPosition;
    s5 := ApplyCert(s4, c, ReadMaximum);
    s6 := ApplyCert(s5, c, SetSequence);
    s7 := ApplyCert(s6, c, Finish);
    assert s7.certs == s.certs;
  }

  lemma QuietChain(h: Hash, s1: State, s2: State, s3: State, s4: State, s5: State, s6: State, s7: State, c: nat)
    requires c in s1.certs && CertEnabled(s1, c, TakeReader) && s2 == ApplyCert(s1, c, TakeReader)
    requires c in s2.certs && CertEnabled(s2, c, TryFence(true)) && s3 == ApplyCert(s2, c, TryFence(true))
    requires c in s3.certs && CertEnabled(s3, c, ReadSequence) && s4 == ApplyCert(s3, c, ReadSequence)
    requires c in s4.certs && CertEnabled(s4, c, ReadMaximum) && s5 == ApplyCert(s4, c, ReadMaximum)
    requires c in s5.certs && CertEnabled(s5, c, SetSequence) && s6 == ApplyCert(s5, c, SetSequence)
    requires c in s6.certs && CertEnabled(s6, c, Finish) && s7 == ApplyCert(s6, c, Finish)
    ensures Runs(h, s1, QuietRest(c)) && After(h, s1, QuietRest(c)) == s7
  {
    hide CertEnabled, ApplyCert;
    One(h, s6, c, Finish, []);
    hide Runs, After;
    var r5 := [Certify(c, Finish)] + [];
    One(h, s5, c, SetSequence, r5);
    var r4 := [Certify(c, SetSequence)] + r5;
    One(h, s4, c, ReadMaximum, r4);
    var r3 := [Certify(c, ReadMaximum)] + r4;
    One(h, s3, c, ReadSequence, r3);
    var r2 := [Certify(c, ReadSequence)] + r3;
    One(h, s2, c, TryFence(true), r2);
    One(h, s1, c, TakeReader, [Certify(c, TryFence(true))] + r2);
  }

  lemma MaxAboveWatermark(h: Hash, s: State)
    requires StoreInv(h, s) && CertInv(s)
    ensures s.watermark <= MaxPosition(s.committed, s.counter)
  {
    Positions(h, s);
    hide StoreInv;
    MaxPositionIsMax(s.committed, s.counter);
  }

  /** No lock is left behind: whoever holds the certifiers' lock or the whole fence is a certifier
      still running, however others ended. */
  lemma LocksHaveHolders(h: Hash, s: State)
    requires IsReachable(h, s)
    ensures s.reader.Some? ==> s.reader.value in s.certs
    ensures s.exclusive.Some? ==> s.exclusive.value in s.certs
  {
    hide IsReachable, StoreInv, AccountInv;
    ReachableInv(h, s);
  }

  // ---- Streams and optimistic concurrency ----

  lemma StreamsNumbered(h: Hash, s: State, stream: string)
    requires StoreInv(h, s)
    ensures Numbered(s.committed, stream, s.counter) && Within(s.committed, s.counter)
  {
  }

  /** In every reachable state a stream's committed versions are exactly 1..n, and version
      order is global-position order: version v sits at the v-th position of the stream. */
  lemma StreamIntegrity(h: Hash, s: State, stream: string)
    requires IsReachable(h, s)
    ensures var log := StreamLog(s.committed, stream, s.counter);
            Ascending(log) &&
            (forall i :: 0 <= i < |log| ==> log[i] in s.committed && s.committed[log[i]].version == i + 1) &&
            forall p :: p in s.committed && s.committed[p].stream == stream ==>
              1 <= s.committed[p].version <= |log| && log[s.committed[p].version - 1] == p
  {
    hide IsReachable, StoreInv, CertInv, AccountInv;
    ReachableInv(h, s);
    StreamsNumbered(h, s, stream);
    NumberedIsBijection(s.committed, stream, s.counter);
  }

  lemma NumberedIsBijection(t: Table, stream: string, hi: nat)
    requires Numbered(t, stream, hi) && Within(t, hi)
    ensures var log := StreamLog(t, stream, hi);
            Ascending(log) &&
            forall p :: p in t && t[p].stream == stream ==>
              1 <= t[p].version <= |log| && log[t[p].version - 1] == p
  {
    var log := StreamLog(t, stream, hi);
    SelectAscending(t, InStream(stream), 0, hi);
    SelectMembers(t, InStream(stream), 0, hi);
    forall p | p in t && t[p].stream == stream
      ensures 1 <= t[p].version <= |log| && log[t[p].version - 1] == p
    {
      assert p in log;
      var i :| 0 <= i < |log| && log[i] == p;
    }
  }

  lemma OutcomesOk(h: Hash, s: State, i: nat)
    requires StoreInv(h, s) && i < |s.outcomes|
    ensures OutcomeOk(s.committed, s.keys, s.outcomes[i])
  {
  }

  /** Every committed append stands in its stream as one block right after the head it
      expected: with expectedVersion N > 0 exactly N events precede it, with -1 none. */
  lemma CommittedAppendFollowsHead(h: Hash, s: State, i: nat)
    requires IsReachable(h, s) && i < |s.outcomes| && !s.outcomes[i].duplicate
    ensures var o := s.outcomes[i];
            var log := StreamLog(s.committed, o.call.stream, s.counter);
            0 <= o.from - 1 <= o.to <= |log| && log[o.from - 1..o.to] == o.positions &&
            |o.positions| == |o.call.request.events| &&
            (forall k :: 0 <= k < |o.positions| ==>
               o.positions[k] in s.committed && s.committed[o.positions[k]].event == o.call.request.events[k]) &&
            (o.call.expected > 0 ==> o.from - 1 == o.call.expected) &&
            (o.call.expected == -1 ==> o.from - 1 == 0)
  {
    hide IsReachable, StoreInv, CertInv, AccountInv;
    ReachableInv(h, s);
    OutcomesOk(h, s, i);
    StreamsNumbered(h, s, s.outcomes[i].call.stream);
    BlockInLog(s.committed, s.counter, s.outcomes[i]);
  }

  lemma BlockInLog(t: Table, hi: nat, o: Outcome)
    requires Numbered(t, o.call.stream, hi) && Within(t, hi) && o.from >= 1
    requires |o.positions| > 0 && o.to == o.from + |o.positions| - 1
    requires RowsMatch(t, o.call.stream, o.call.request.events, o.from, o.positions)
    ensures o.to <= |StreamLog(t, o.call.stream, hi)|
    ensures StreamLog(t, o.call.stream, hi)[o.from - 1..o.to] == o.positions
  {
    NumberedIsBijection(t, o.call.stream, hi);
    var log, n := StreamLog(t, o.call.stream, hi), |o.positions|;
    forall k | 0 <= k < n ensures o.from + k <= |log| && log[o.from - 1 + k] == o.positions[k] {
      assert t[o.positions[k]].version == o.from + k;
    }
    var last := o.positions[n - 1];
    assert o.from + (n - 1) <= |log|;
  }

  lemma CurrentTxnOk(h: Hash, s: State, t: nat)
    requires StoreInv(h, s) && t in s.txns
    ensures TxnOk(s.committed, s.keys, s.counter, s.txns[t]) && LockInv(h, s)
    ensures XidInv(s) && PositionInv(s)
  {
  }

  /** validateVersion lets a call through exactly when the expectation names the true head
      of the stream: the committed events and the transaction's own, no other running
      transaction holding uncommitted events of it. */
  lemma ValidationIsExact(h: Hash, s: State, t: nat)
    requires IsReachable(h, s) && t in s.txns && s.txns[t].phase.Fresh?
    ensures var call := s.txns[t].phase.call;
            var head := |StreamLog(View(s, t), call.stream, s.counter)|;
            var after := Quietly(h, s, t, Validate).phase;
            (after == Inserting(call, head + 1, []) || after == Refused) &&
            (after.Inserting? <==>
               (call.expected > 0 ==> call.expected == head) && (call.expected == -1 ==> head == 0)) &&
            forall u, p :: u in s.txns && u != t && p in s.txns[u].rows ==> s.txns[u].rows[p].stream != call.stream
  {
    hide IsReachable, StoreInv, CertInv, AccountInv;
    ReachableInv(h, s);
    CurrentTxnOk(h, s, t);
    var call := s.txns[t].phase.call;
    MaxVersionIsLength(View(s, t), call.stream, s.counter);
    forall u, p | u in s.txns && u != t && p in s.txns[u].rows
      ensures s.txns[u].rows[p].stream != call.stream
    {
      assert h(s.txns[u].rows[p].stream) in s.txns[u].locks;
    }
  }

  /** With the stream lock held the next version is free, among the rows a transaction sees and
      those of every other: the UNIQUE constraint on (stream_id, stream_version) is never
      violated and never waited for. */
  lemma InsertsNeverClash(h: Hash, s: State, t: nat, u: nat)
    requires IsReachable(h, s) && t in s.txns && u in s.txns && s.txns[t].phase.Inserting?
    ensures var p := s.txns[t].phase;
            !Clashes(View(s, t), p.call.stream, NextVersion(p)) &&
            (u != t ==> !Clashes(s.txns[u].rows, p.call.stream, NextVersion(p)))
  {
    hide IsReachable, StoreInv, CertInv, AccountInv;
    ReachableInv(h, s);
    InsertNeverClashes(h, s, t, u);
  }

  // ---- Idempotent appends ----

  /** Over all committed calls given one key: they name one stream and one request, all
      returned the same version range and positions, those events exist, and at most one
      of the calls appended. */
  lemma IdempotentEffect(h: Hash, s: State, i: nat, j: nat)
    requires IsReachable(h, s) && i < |s.outcomes| && j < |s.outcomes|
    requires s.outcomes[i].call.key.Some? && s.outcomes[i].call.key == s.outcomes[j].call.key
    ensures var a, b := s.outcomes[i], s.outcomes[j];
            a.call.stream == b.call.stream && a.call.request == b.call.request &&
            a.from == b.from && a.to == b.to && a.positions == b.positions &&
            (forall k :: 0 <= k < |b.positions| ==> b.positions[k] in s.committed) &&
            (!a.duplicate && !b.duplicate ==> i == j)
  {
    hide IsReachable, CertInv, AccountInv, TxnOk, AllNumbered;
    ReachableInv(h, s);
    assert OutcomeOk(s.committed, s.keys, s.outcomes[i]) && OutcomeOk(s.committed, s.keys, s.outcomes[j]);
  }

  /** A repeated call: whatever was answered to a key, by a committed transaction or earlier in
      the same one, is what every later call with that key, stream and request is answered, and
      such a call changes nothing else; with another stream or request it is refused. */
  lemma RepeatedCallIsAnswered(h: Hash, s: State, t: nat, o: Outcome)
    requires IsReachable(h, s) && t in s.txns && (o in s.outcomes || o in s.txns[t].outcomes)
    requires s.txns[t].phase.Locked? && o.call.key.Some? && s.txns[t].phase.call.key == o.call.key
    ensures var x, call := s.txns[t], s.txns[t].phase.call;
            Quietly(h, s, t, CheckKey) ==
              if call.stream == o.call.stream && call.request == o.call.request
              then x.(outcomes := x.outcomes + [Outcome(call, o.from, o.to, o.positions, true)], phase := Idle)
              else x.(phase := Refused)
  {
    hide IsReachable, CertInv, AccountInv;
    ReachableInv(h, s);
    StoredAnswer(h, s, t, o);
    hide StoreInv;
  }

  lemma StoredAnswer(h: Hash, s: State, t: nat, o: Outcome)
    requires StoreInv(h, s) && t in s.txns && (o in s.outcomes || o in s.txns[t].outcomes) && o.call.key.Some?
    ensures var k, visible := o.call.key.value, VisibleKeys(s, t);
            k in visible && visible[k] == KeyRecord(o.call.stream, o.call.request, o.from, o.to, o.positions)
  {
    RecordOfTxn(h, s, t);
    hide KeyOk, AllNumbered, PhaseOk, OutboxOk, AtMostOnce;
    if o in s.outcomes {
      var i :| 0 <= i < |s.outcomes| && s.outcomes[i] == o;
      assert OutcomeOk(s.committed, s.keys, s.outcomes[i]);
    } else {
      var i :| 0 <= i < |s.txns[t].outcomes| && s.txns[t].outcomes[i] == o;
      assert OutcomeOk(View(s, t), VisibleKeys(s, t), s.txns[t].outcomes[i]);
    }
  }

  // ---- Outbox conservation ----

  /** The committed outbox holds exactly events x topics rows for every committed append,
      in append order, aligned with its positions, and nothing for duplicates. */
  lemma OutboxConservation(h: Hash, s: State)
    requires IsReachable(h, s)
    ensures s.outbox == FlatMap(OwedBy, s.outcomes)
    ensures forall i :: 0 <= i < |s.outcomes| ==>
              var o := s.outcomes[i];
              |OwedBy(o)| == if o.duplicate then 0 else |o.call.request.events| * |o.call.request.topics|
  {
    hide IsReachable, CertInv, AccountInv, TxnOk, AllNumbered;
    ReachableInv(h, s);
    forall i | 0 <= i < |s.outcomes|
      ensures var o := s.outcomes[i];
              |OwedBy(o)| == if o.duplicate then 0 else |o.call.request.events| * |o.call.request.topics|
    {
      var o := s.outcomes[i];
      assert OutcomeOk(s.committed, s.keys, o);
      OutboxRowsCount(o.call.request.events, o.positions, o.call.request.topics);
    }
  }

  // ---- Atomicity ----

  /** Every committed row was written by exactly one committed, successful append call:
      failed calls and rolled back transactions leave none. */
  lemma CommittedRowsHaveOneAppend(h: Hash, s: State, p: nat)
    requires IsReachable(h, s) && p in s.committed
    ensures exists i :: WrittenBy(s.outcomes, i, p) && forall j :: WrittenBy(s.outcomes, j, p) ==> j == i
  {
    hide IsReachable, CertInv, StoreInv;
    ReachableInv(h, s);
    var i :| WrittenBy(s.outcomes, i, p);
  }
}
