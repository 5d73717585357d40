/** Paging beside running writers: the boundary the first page captures keeps showing the same
    events in every later state of the commit-order protocol, late lower positions included. */
module PagingOverRuns {
  import opened Options
  import opened Decimals
  import opened Sequences
  import opened EventTable
  import opened Enumeration
  import opened StableSort
  import opened ReadEventsPage
  import opened CommitOrder
  import opened CommitOrderSafety
  import opened CommitOrderTheorems

  /** captureReadEventsBoundary: one statement reads the snapshot and the highest position. */
  function Capture(s: State): Boundary {
    Boundary(MaxPosition(s.committed, s.counter), Snapshot(s.nextXid, s.txns.Keys))
  }

  /** The snapshot separates the rows of the captured table from everything later. */
  ghost predicate Frozen(base: Table, snapshot: Snapshot, s: State) {
    && Extends(base, s.committed)
    && (forall p :: p in s.committed ==> (VisibleIn(s.committed[p].xid, snapshot) <==> p in base))
    && (forall t :: t in s.txns ==> !VisibleIn(t, snapshot))
    && snapshot.xmax <= s.nextXid
  }

  lemma CaptureFreezes(s: State)
    requires XidInv(s)
    ensures Frozen(s.committed, Capture(s).snapshot, s)
  {
  }

  lemma CommitKeepsFrozen(base: Table, snapshot: Snapshot, s: State, t: nat)
    requires XidInv(s) && PositionInv(s) && Frozen(base, snapshot, s) && t in s.txns
    ensures Frozen(base, snapshot, DoCommit(s, t))
  {
    forall p | p in View(s, t)
      ensures VisibleIn(View(s, t)[p].xid, snapshot) <==> p in base
    {
      if p in s.txns[t].rows {
        assert s.txns[t].rows[p].xid == t && p !in s.committed;
      }
    }
  }

  /** Steps other than a commit add no row and begin transactions only with new ids. */
  lemma OtherStepShape(h: Hash, s: State, a: Step)
    requires Enabled(h, s, a) && !(a.Write? && a.w.Commit?)
    ensures var s' := Apply(h, s, a);
            s'.committed == s.committed && s.nextXid <= s'.nextXid &&
            forall t :: t in s'.txns ==> t in s.txns || t >= s.nextXid
  {
    hide Quietly, WriteEnabled, Clashes, CertEnabled, ApplyWrite, ApplyCert;
    match a
    case Write(t, w) => OtherWriteShape(h, s, t, w);
    case Certify(c, k) => CertifyShape(s, c, k);
    case _ =>
  }

  lemma OtherWriteShape(h: Hash, s: State, t: nat, w: WriteStep)
    requires t in s.txns && WriteEnabled(h, s, t, w) && !w.Commit?
    ensures var s' := ApplyWrite(h, s, t, w);
            s'.committed == s.committed && s.nextXid == s'.nextXid && s'.txns.Keys <= s.txns.Keys
  {
    hide Quietly, Clashes, WriteEnabled;
  }

  lemma CertifyShape(s: State, c: nat, k: CertStep)
    requires c in s.certs && CertEnabled(s, c, k)
    ensures var s' := ApplyCert(s, c, k);
            s'.committed == s.committed && s.nextXid == s'.nextXid && s'.txns == s.txns
  {
  }

  lemma FrozenFrame(base: Table, snapshot: Snapshot, s: State, s': State)
    requires Frozen(base, snapshot, s) && s'.committed == s.committed && s.nextXid <= s'.nextXid
    requires forall t :: t in s'.txns ==> t in s.txns || t >= s.nextXid
    ensures Frozen(base, snapshot, s')
  {
  }

  lemma StepKeepsFrozen(h: Hash, base: Table, snapshot: Snapshot, s: State, a: Step)
    requires Inv(h, s) && Frozen(base, snapshot, s) && Enabled(h, s, a)
    ensures Frozen(base, snapshot, Apply(h, s, a))
  {
    hide Inv, Frozen, WriteEnabled, CertEnabled, DoCommit;
    if a.Write? && a.w.Commit? {
      TxnFacts(h, s);
      CommitKeepsFrozen(base, snapshot, s, a.t);
    } else {
      OtherStepShape(h, s, a);
      hide Apply;
      FrozenFrame(base, snapshot, s, Apply(h, s, a));
    }
  }

  lemma TxnFacts(h: Hash, s: State)
    requires Inv(h, s)
    ensures XidInv(s) && PositionInv(s)
  {
  }

  lemma {:induction false} RunKeepsFrozen(h: Hash, base: Table, snapshot: Snapshot, s: State, steps: seq<Step>)
    requires Inv(h, s) && Frozen(base, snapshot, s) && Runs(h, s, steps)
    ensures Frozen(base, snapshot, After(h, s, steps))
    decreases |steps|
  {
    hide Inv, Enabled, Apply, Frozen;
    if steps == [] {
    } else {
      StepKeepsFrozen(h, base, snapshot, s, steps[0]);
      StepKeepsInv(h, s, steps[0]);
      RunKeepsFrozen(h, base, snapshot, Apply(h, s, steps[0]), steps[1..]);
    }
  }

  /** A row of any later state is inside the captured boundary exactly when it had been
      committed at capture: later commits stay invisible, even at lower positions. */
  lemma BoundaryIsFrozen(h: Hash, s: State, later: seq<Step>, p: nat)
    requires IsReachable(h, s) && Runs(h, s, later)
    ensures var t' := After(h, s, later).committed;
            (p in t' && p <= Capture(s).watermark && VisibleIn(t'[p].xid, Capture(s).snapshot) <==> p in s.committed) &&
            (p in s.committed ==> p in t' && t'[p] == s.committed[p])
  {
    hide IsReachable, Runs, After, StoreInv, CertInv, AccountInv, MaxPosition;
    ReachableInv(h, s);
    TxnFacts(h, s);
    CaptureFreezes(s);
    RunKeepsFrozen(h, s.committed, Capture(s).snapshot, s, later);
    MaxPositionIsMax(s.committed, s.counter);
  }

  lemma LaterTableShowsSamePages(cmp: Compare, h: Hash, s: State, later: seq<Step>, order: Order, streamIds: seq<string>, f: Fetch)
    requires IsReachable(h, s) && Runs(h, s, later) && f.table == After(h, s, later).committed
    requires ValidRequest(PageRequest(f.streamIds, order, f.limit, None)) && SameStreamSet(cmp, f.streamIds, streamIds)
    ensures SamePages(cmp, s.committed, order, Capture(s), streamIds, f)
  {
    hide IsReachable, Runs, After;
    forall p: nat
      ensures p in f.table && p <= Capture(s).watermark && VisibleIn(f.table[p].xid, Capture(s).snapshot) <==>
              p in s.committed
      ensures p in s.committed ==> p in f.table && f.table[p] == s.committed[p]
    {
      BoundaryIsFrozen(h, s, later, p);
    }
    CapturedRowsVisible(h, s);
    hide Capture;
    assert FrozenKeys(f.table, order, Capture(s), streamIds) == FrozenKeys(s.committed, order, Capture(s), streamIds);
  }

  lemma CapturedRowsVisible(h: Hash, s: State)
    requires IsReachable(h, s)
    ensures forall p :: p in s.committed ==>
              p <= Capture(s).watermark && VisibleIn(s.committed[p].xid, Capture(s).snapshot)
  {
    hide IsReachable, StoreInv, CertInv, AccountInv, MaxPosition;
    ReachableInv(h, s);
    TxnFacts(h, s);
    MaxPositionIsMax(s.committed, s.counter);
  }

  /** An event id names one stream and one version, whatever slashes the stream name holds. */
  lemma EventIdInjective(a: Row, b: Row)
    requires EventId(a) == EventId(b)
    ensures a.stream == b.stream && a.version == b.version
  {
    var x, y := EventId(a), EventId(b);
    assert x[|a.stream|] == '/' && y[|b.stream|] == '/';
    if |a.stream| < |b.stream| {
      SlashIsNoDigit(a, |b.stream|);
    } else if |b.stream| < |a.stream| {
      SlashIsNoDigit(b, |a.stream|);
    } else {
      assert x[..|a.stream|] == a.stream && y[..|b.stream|] == b.stream;
      assert x[|a.stream| + 1..] == Decimal(a.version) && y[|b.stream| + 1..] == Decimal(b.version);
      DecimalInjective(a.version, b.version);
    }
  }

  /** Behind its own slash an event id holds digits only. */
  lemma SlashIsNoDigit(row: Row, i: nat)
    requires |row.stream| < i < |EventId(row)|
    ensures EventId(row)[i] != '/'
  {
    DecimalDigits(row.version, i - |row.stream| - 1);
    assert EventId(row)[i] == Decimal(row.version)[i - |row.stream| - 1];
  }

  /** In every reachable state an event id belongs to one committed event. */
  lemma EventIdsAreUnique(h: Hash, s: State, p: nat, q: nat)
    requires IsReachable(h, s) && p in s.committed && q in s.committed
    requires EventId(s.committed[p]) == EventId(s.committed[q])
    ensures p == q
  {
    hide IsReachable;
    EventIdInjective(s.committed[p], s.committed[q]);
    StreamIntegrity(h, s, s.committed[p].stream);
  }

  /** The whole guarantee: the first page captures its boundary in state s, each further page
      is read from some later state, whose own boundary does not matter, with the limit changed at
      will and the streams in any order that is accepted.  The pages concatenate to a prefix of the
      sorted list of the streams' events committed in s, to all of it once nextCursor is null, and
      that is reached within as many fetches as there are events. */
  lemma PagesPartitionTheCapturedEvents(h: Hash, cmp: Compare, lt: Collation, s: State, order: Order, streamIds: seq<string>,
                                        fetches: seq<Fetch>, laters: seq<seq<Step>>)
    requires IsReachable(h, s) && Consistent(cmp) && Irreflexive(lt) && streamIds != []
    requires |laters| == |fetches|
    requires forall i :: 0 <= i < |fetches| ==>
               Runs(h, s, laters[i]) && fetches[i].table == After(h, s, laters[i]).committed &&
               ValidRequest(PageRequest(fetches[i].streamIds, order, fetches[i].limit, None)) &&
               SameStreamSet(cmp, fetches[i].streamIds, streamIds)
    requires fetches != [] ==> fetches[0].captured == Capture(s)
    ensures var b := Capture(s);
            var (keys, finished) := Follow(cmp, lt, order, fetches, None);
            var all := FrozenList(s.committed, order, b, streamIds);
            keys <= all && (finished ==> keys == all) && (|fetches| > |all| ==> finished) && Ascending(all) &&
            forall x :: x in all <==>
              PositionOf(order, x) >= 0 && PositionOf(order, x) in s.committed &&
              s.committed[PositionOf(order, x)].stream in streamIds
  {
    hide IsReachable, Runs, After;
    var b := Capture(s);
    forall i | 0 <= i < |fetches| ensures SamePages(cmp, s.committed, order, b, streamIds, fetches[i]) {
      LaterTableShowsSamePages(cmp, h, s, laters[i], order, streamIds, fetches[i]);
    }
    PagingPartitions(cmp, lt, s.committed, order, b, streamIds, fetches, None);
    CapturedRowsVisible(h, s);
    hide Capture, Follow, SamePages;
    FrozenListIsAllEvents(s.committed, order, b, streamIds);
  }

  lemma FrozenListIsAllEvents(t: Table, order: Order, b: Boundary, streamIds: seq<string>)
    requires forall p :: p in t ==> p <= b.watermark && VisibleIn(t[p].xid, b.snapshot)
    ensures var all := FrozenList(t, order, b, streamIds);
            Ascending(all) &&
            forall x :: x in all <==>
              PositionOf(order, x) >= 0 && PositionOf(order, x) in t && t[PositionOf(order, x)].stream in streamIds
  {
    var all, keys := FrozenList(t, order, b, streamIds), FrozenKeys(t, order, b, streamIds);
    EnumMembers(keys, Lowest(b), Highest(b));
    EnumAscending(keys, Lowest(b), Highest(b));
    forall x
      ensures x in all <==>
              PositionOf(order, x) >= 0 && PositionOf(order, x) in t && t[PositionOf(order, x)].stream in streamIds
    {
      var p := PositionOf(order, x);
      if p >= 0 && p in t {
        assert Key(order, p) == x;
      }
    }
  }
}

