/** An append that nobody stands in the way of resolves and is committed, in the store's own
    transaction and in its caller's. */
module AppendCallsProgress {
  import opened Options
  import opened EventTable
  import opened CommitOrder
  import opened CommitOrderSafety
  import opened CommitOrderTheorems
  import opened AppendRuns
  import opened AppendCalls
  import opened AppendCallsSafety

  // ---- Runs by their ends ----

  ghost predicate CallLeads(h: Hash, y: Calls, acts: seq<Act>, y': Calls) {
    CallRuns(h, y, acts) && CallsAfter(h, y, acts) == y'
  }

  lemma {:induction false} CallLeadsJoin(h: Hash, y: Calls, a: seq<Act>, y1: Calls, b: seq<Act>, y2: Calls)
    requires CallLeads(h, y, a, y1) && CallLeads(h, y1, b, y2)
    ensures CallLeads(h, y, a + b, y2)
    decreases |a|
  {
    hide ActEnabled, ApplyAct;
    if a == [] {
      assert a + b == b;
    } else {
      CallLeadsJoin(h, ApplyAct(h, y, a[0]), a[1..], y1, b, y2);
      assert (a + b)[1..] == a[1..] + b;
    }
  }

  lemma CallLeadsThree(h: Hash, y: Calls, a: seq<Act>, y1: Calls, b: seq<Act>, y2: Calls, c: seq<Act>, y3: Calls)
    requires CallLeads(h, y, a, y1) && CallLeads(h, y1, b, y2) && CallLeads(h, y2, c, y3)
    ensures CallLeads(h, y, a + b + c, y3)
  {
    hide CallLeads;
    CallLeadsJoin(h, y, a, y1, b, y2);
    CallLeadsJoin(h, y, a + b, y2, c, y3);
  }

  lemma CallLeadsOne(h: Hash, y: Calls, a: Act, y': Calls)
    requires ActEnabled(h, y, a) && ApplyAct(h, y, a) == y'
    ensures CallLeads(h, y, [a], y')
  {
    hide ActEnabled, ApplyAct;
    assert CallRuns(h, y', []) && CallsAfter(h, y', []) == y';
    var one := [a];
    assert one[0] == a && one[1..] == [];
  }

  lemma LeadsTail(h: Hash, s: State, steps: seq<Step>, s': State)
    requires Leads(h, s, steps, s') && steps != []
    ensures Enabled(h, s, steps[0]) && Leads(h, Apply(h, s, steps[0]), steps[1..], s')
  {
    hide Enabled, Apply;
  }

  // ---- The statements of a call, as acts ----

  function Writes(t: nat, ws: seq<WriteStep>): seq<Step> {
    seq(|ws|, i requires 0 <= i < |ws| => Write(t, ws[i]))
  }

  function Works(t: nat, ws: seq<WriteStep>): seq<Act> {
    seq(|ws|, i requires 0 <= i < |ws| => Work(t, ws[i]))
  }

  /** A call that becomes idle has answered. */
  lemma IdleAnswers(h: Hash, s: State, t: nat, w: WriteStep)
    requires t in s.txns && WriteEnabled(h, s, t, w) && InsideCall(w) && s.txns[t].phase != Idle
    ensures t in ApplyWrite(h, s, t, w).txns
    ensures var x' := ApplyWrite(h, s, t, w).txns[t];
            s.txns[t].outcomes <= x'.outcomes && (x'.phase == Idle ==> |x'.outcomes| > |s.txns[t].outcomes|)
  {
    WriteMoves(h, s, t, w);
    if Quiet(w) {
      hide MaxVersion, VisibleKeys, Moves;
    } else {
      hide Clashes, Moves;
    }
  }

  lemma {:induction false} WritesGrow(h: Hash, s: State, t: nat, ws: seq<WriteStep>, s': State)
    requires t in s.txns && Leads(h, s, Writes(t, ws), s') && forall i :: 0 <= i < |ws| ==> InsideCall(ws[i])
    ensures t in s'.txns && s.txns[t].outcomes <= s'.txns[t].outcomes
    decreases |ws|
  {
    if ws == [] {
      assert Writes(t, ws) == [];
    } else {
      LeadsTail(h, s, Writes(t, ws), s');
      WriteMoves(h, s, t, ws[0]);
      assert Writes(t, ws)[1..] == Writes(t, ws[1..]);
      assert forall i :: 0 <= i < |ws[1..]| ==> ws[1..][i] == ws[i + 1];
      hide Leads, ApplyWrite, WriteEnabled;
      WritesGrow(h, ApplyWrite(h, s, t, ws[0]), t, ws[1..], s');
    }
  }

  /** A run of statements that does not answer the events' call, or any behind it, is a run of
      acts that moves nothing but the store. */
  lemma {:induction false} WorksLead(h: Hash, y: Calls, t: nat, ws: seq<WriteStep>, s': State)
    requires t in y.clients && t in y.store.txns && Leads(h, y.store, Writes(t, ws), s')
    requires forall i :: 0 <= i < |ws| ==> InsideCall(ws[i])
    requires y.clients[t].progress.Maintaining? ||
             (y.clients[t].progress.Appending? && y.store.txns[t].phase != Idle &&
              t in s'.txns && s'.txns[t].outcomes == y.store.txns[t].outcomes)
    ensures CallLeads(h, y, Works(t, ws), y.(store := s'))
    decreases |ws|
  {
    if ws == [] {
      assert Writes(t, ws) == [] && Works(t, ws) == [];
      assert s' == y.store;
      assert y.(store := s') == y;
    } else {
      var w := ws[0];
      var s1 := OneWork(h, y, t, ws, s');
      var y1 := y.(store := s1);
      hide CallLeads, Leads;
      WorksLead(h, y1, t, ws[1..], s');
      CallLeadsJoin(h, y, [Work(t, w)], y1, Works(t, ws[1..]), y1.(store := s'));
      assert [Work(t, w)] + Works(t, ws[1..]) == Works(t, ws);
    }
  }

  lemma OneWork(h: Hash, y: Calls, t: nat, ws: seq<WriteStep>, s': State) returns (s1: State)
    requires t in y.clients && t in y.store.txns && ws != [] && Leads(h, y.store, Writes(t, ws), s')
    requires forall i :: 0 <= i < |ws| ==> InsideCall(ws[i])
    requires y.clients[t].progress.Maintaining? ||
             (y.clients[t].progress.Appending? && y.store.txns[t].phase != Idle &&
              t in s'.txns && s'.txns[t].outcomes == y.store.txns[t].outcomes)
    ensures CallLeads(h, y, [Work(t, ws[0])], y.(store := s1)) && Leads(h, s1, Writes(t, ws[1..]), s') && t in s1.txns
    ensures y.clients[t].progress.Appending? ==> s1.txns[t].phase != Idle && s1.txns[t].outcomes == y.store.txns[t].outcomes
    ensures forall i :: 0 <= i < |ws[1..]| ==> InsideCall(ws[1..][i])
  {
    var s, w, c := y.store, ws[0], y.clients[t];
    LeadsTail(h, s, Writes(t, ws), s');
    s1 := ApplyWrite(h, s, t, w);
    assert Writes(t, ws)[1..] == Writes(t, ws[1..]);
    assert forall i :: 0 <= i < |ws[1..]| ==> ws[1..][i] == ws[i + 1];
    hide Leads, ApplyWrite, WriteEnabled, CallLeads;
    WriteMoves(h, s, t, w);
    if c.progress.Appending? {
      IdleAnswers(h, s, t, w);
      WritesGrow(h, s1, t, ws[1..], s');
    }
    assert Progressed(c, s1.txns[t]) == c.progress;
    assert ActEnabled(h, y, Work(t, w));
    WorkIs(h, y, t, w);
    assert y.clients[t := c.(progress := c.progress)] == y.clients;
    CallLeadsOne(h, y, Work(t, w), y.(store := s1));
  }

  // ---- The call for the events ----

  function AnswerOf(s: State, t: nat, call: Call): Outcome
    requires t in s.txns
  {
    var n, head := |call.request.events|, Head(s, t, call.stream);
    Outcome(call, head + 1, head + n, PositionsFrom(s.counter, n), false)
  }

  /** The statements of a call between the lock and the record. */
  function Body(call: Call): seq<WriteStep> {
    [CheckKey, Validate, CommitOrder.Fence] + seq(|call.request.events|, i => InsertRow) + [WriteOutbox]
  }

  function CallActs(t: nat, call: Call): seq<Act> {
    [Open(t, call)] + Works(t, Body(call)) + [Work(t, Record)]
  }

  function SnapshotActs(t: nat, call: Call): seq<Act> {
    [Maintain(t, call)] + Works(t, Body(call)) + [Work(t, Record)]
  }

  lemma BodyIsWrites(t: nat, call: Call)
    ensures var steps, n := CallSteps(t, call)[..5 + |call.request.events|], |call.request.events|;
            steps != [] && steps[0] == Write(t, Lock(call)) && steps[1..] == Writes(t, Body(call))
    ensures forall i :: 0 <= i < |Body(call)| ==> InsideCall(Body(call)[i])
  {
    var steps, body := CallSteps(t, call)[..5 + |call.request.events|], Writes(t, Body(call));
    assert |steps[1..]| == |body|;
  }

  /** What the call's statements do below, from behind the lock on. */
  lemma BodyLeads(h: Hash, s: State, t: nat, call: Call)
    requires IsReachable(h, s) && Unhindered(h, s, t, call) && NewKey(s, t, call) && ExpectsHead(s, t, call)
    ensures Leads(h, At(s, t, Holding(h, s.txns[t], call, Locked(call)), 0), Writes(t, Body(call)),
                  At(s, t, Wrote(h, s, t, call), |call.request.events|))
  {
    hide IsReachable, Inv, NewKey, ExpectsHead, Wrote, Leads, CallSteps;
    ReachableInv(h, s);
    WritingLeads(h, s, t, call);
    BodyIsWrites(t, call);
    CallPieces(t, call);
    LeadsTail(h, s, CallSteps(t, call)[..5 + |call.request.events|], At(s, t, Wrote(h, s, t, call), |call.request.events|));
  }

  lemma WroteFacts(h: Hash, s: State, t: nat, call: Call)
    requires t in s.txns
    ensures Wrote(h, s, t, call).outcomes == s.txns[t].outcomes && Wrote(h, s, t, call).phase.Written?
  {
  }

  /** Opening the call, or a snapshot append, takes the lock and nothing else. */
  lemma OpenLeads(h: Hash, y: Calls, t: nat, call: Call)
    requires t in y.clients && Unhindered(h, y.store, t, call)
    ensures var s, c := y.store, y.clients[t];
            var locked := y.(store := At(s, t, Holding(h, s.txns[t], call, Locked(call)), 0));
            (c.progress == Outside ==>
               CallLeads(h, y, [Open(t, call)], locked.(clients := y.clients[t := c.(progress := Appending(s.counter))]))) &&
            (c.progress.Maintaining? && SnapshotCall(call, c.progress.answer.call.stream) ==>
               CallLeads(h, y, [Maintain(t, call)], locked))
  {
    var s, c := y.store, y.clients[t];
    var s' := At(s, t, Holding(h, s.txns[t], call, Locked(call)), 0);
    assert WriteEnabled(h, s, t, Lock(call));
    assert ApplyWrite(h, s, t, Lock(call)) == s';
    hide CallLeads, WriteEnabled, ApplyWrite, Unhindered, At;
    if c.progress == Outside {
      CallLeadsOne(h, y, Open(t, call), y.(store := s', clients := y.clients[t := c.(progress := Appending(s.counter))]));
    } else if c.progress.Maintaining? && SnapshotCall(call, c.progress.answer.call.stream) {
      CallLeadsOne(h, y, Maintain(t, call), y.(store := s'));
    }
  }

  /** Recording answers the call; the events' call is followed by the snapshots. */
  lemma RecordActs(h: Hash, y: Calls, s: State, t: nat, call: Call)
    requires t in y.clients && Unhindered(h, s, t, call) && NewKey(s, t, call)
    requires y.store == At(s, t, Wrote(h, s, t, call), |call.request.events|)
    requires y.clients[t].progress.Appending? || y.clients[t].progress.Maintaining?
    ensures var c := y.clients[t];
            var progress := if c.progress.Appending? then Maintaining(c.progress.start, AnswerOf(s, t, call)) else c.progress;
            CallLeads(h, y, [Work(t, Record)], y.(store := WithCall(h, s, t, call), clients := y.clients[t := c.(progress := progress)]))
  {
    RecordLeads(h, s, t, call);
    LeadsTail(h, y.store, [Write(t, Record)], WithCall(h, s, t, call));
    assert ApplyWrite(h, y.store, t, Record) == WithCall(h, s, t, call) && WriteEnabled(h, y.store, t, Record);
    var x' := WithCall(h, s, t, call).txns[t];
    assert x'.phase == Idle && x'.outcomes != [] && x'.outcomes[|x'.outcomes| - 1] == AnswerOf(s, t, call);
    hide Leads, CallLeads, Wrote, WithCall, ApplyWrite, WriteEnabled, Unhindered, NewKey, AnswerOf, At;
    var c := y.clients[t];
    assert ActEnabled(h, y, Work(t, Record));
    WorkIs(h, y, t, Record);
    CallLeadsOne(h, y, Work(t, Record), ApplyAct(h, y, Work(t, Record)));
  }

  /** append's first half: its events are written and the snapshots come next. */
  lemma EventsAppended(h: Hash, y: Calls, t: nat, call: Call)
    requires IsReachable(h, y.store) && t in y.clients && y.clients[t].progress == Outside
    requires Unhindered(h, y.store, t, call) && NewKey(y.store, t, call) && ExpectsHead(y.store, t, call)
    ensures CallLeads(h, y, CallActs(t, call),
                      y.(store := WithCall(h, y.store, t, call),
                         clients := y.clients[t := y.clients[t].(progress := Maintaining(y.store.counter, AnswerOf(y.store, t, call)))]))
  {
    var s, c := y.store, y.clients[t];
    var c1 := c.(progress := Appending(s.counter));
    var y1 := y.(store := At(s, t, Holding(h, s.txns[t], call, Locked(call)), 0), clients := y.clients[t := c1]);
    var y2 := y1.(store := At(s, t, Wrote(h, s, t, call), |call.request.events|));
    OpenLeads(h, y, t, call);
    BodyLeads(h, s, t, call);
    BodyIsWrites(t, call);
    WroteFacts(h, s, t, call);
    assert t in y1.store.txns;
    hide CallLeads, Leads, IsReachable, NewKey, ExpectsHead, Wrote, WithCall, AnswerOf, Body, CallSteps;
    WorksLead(h, y1, t, Body(call), y2.store);
    RecordActs(h, y2, s, t, call);
    var y3 := y.(store := WithCall(h, s, t, call),
                 clients := y.clients[t := c.(progress := Maintaining(s.counter, AnswerOf(s, t, call)))]);
    assert y2.clients[t := c1.(progress := Maintaining(s.counter, AnswerOf(s, t, call)))] == y3.clients;
    hide Unhindered, At, Holding;
    CallLeadsThree(h, y, [Open(t, call)], y1, Works(t, Body(call)), y2, [Work(t, Record)], y3);
  }

  /** A snapshot append behind the events goes through likewise, and append goes on. */
  lemma SnapshotAppended(h: Hash, y: Calls, t: nat, call: Call)
    requires IsReachable(h, y.store) && t in y.clients && y.clients[t].progress.Maintaining?
    requires SnapshotCall(call, y.clients[t].progress.answer.call.stream)
    requires Unhindered(h, y.store, t, call) && ExpectsHead(y.store, t, call)
    ensures CallLeads(h, y, SnapshotActs(t, call), y.(store := WithCall(h, y.store, t, call)))
  {
    var s := y.store;
    var y1 := y.(store := At(s, t, Holding(h, s.txns[t], call, Locked(call)), 0));
    var y2 := y1.(store := At(s, t, Wrote(h, s, t, call), |call.request.events|));
    OpenLeads(h, y, t, call);
    BodyLeads(h, s, t, call);
    BodyIsWrites(t, call);
    assert t in y1.store.txns;
    hide CallLeads, Leads, IsReachable, ExpectsHead, Wrote, WithCall, AnswerOf, Body, CallSteps;
    WorksLead(h, y1, t, Body(call), y2.store);
    RecordActs(h, y2, s, t, call);
    var y3 := y.(store := WithCall(h, s, t, call));
    assert y2.clients[t := y.clients[t]] == y3.clients;
    hide Unhindered, At, Holding;
    CallLeadsThree(h, y, [Maintain(t, call)], y1, Works(t, Body(call)), y2, [Work(t, Record)], y3);
  }

  // ---- A transaction with one append ----

  /** The state with the events of the transaction's append written. */
  function Appended(h: Hash, y: Calls, owner: Owner, call: Call): Calls {
    var t, s := y.store.nextXid, Begun(y.store);
    y.(store := WithCall(h, s, t, call), clients := y.clients[t := Client(owner, Maintaining(s.counter, AnswerOf(s, t, call)))])
  }

  lemma StartAndAppend(h: Hash, y: Calls, owner: Owner, call: Call)
    requires CallsReachable(h, y) && Clear(h, y.store, call)
    ensures CallLeads(h, y, [Start(owner)] + CallActs(y.store.nextXid, call), Appended(h, y, owner, call))
  {
    var t, s := y.store.nextXid, Begun(y.store);
    StoreIsReachable(h, y);
    hide CallsReachable, IsReachable, Clear;
    ClearForNew(h, y.store, call);
    var y1 := y.(store := s, clients := y.clients[t := Client(owner, Outside)]);
    CallLeadsOne(h, y, Start(owner), y1);
    hide CallLeads, Leads, Unhindered, NewKey, ExpectsHead, WithCall, AnswerOf, CallActs, Begun;
    EventsAppended(h, y1, t, call);
    assert y1.clients[t := Client(owner, Maintaining(s.counter, AnswerOf(s, t, call)))] == Appended(h, y, owner, call).clients;
    CallLeadsJoin(h, y, [Start(owner)], y1, CallActs(t, call), Appended(h, y, owner, call));
  }

  /** The commit of an append whose transaction has settled. */
  lemma EndLeads(h: Hash, y: Calls, call: Call, y1: Calls)
    requires y.store.nextXid !in y.store.txns && y.store.nextXid !in y.clients
    requires y1.store == WithCall(h, Begun(y.store), y.store.nextXid, call)
    requires y.store.nextXid in y1.clients && y1.clients - {y.store.nextXid} == y.clients
    requires y1.clients[y.store.nextXid].progress == Outside || y1.clients[y.store.nextXid].progress == Resolved
    ensures CallLeads(h, y1, [End(y.store.nextXid)],
                      y1.(store := WithAppend(y.store, call), clients := y.clients, ended := y1.ended + {y.store.nextXid}))
  {
    CommitLeads(h, y.store, call);
    LeadsTail(h, y1.store, [Write(y.store.nextXid, Commit)], WithAppend(y.store, call));
    hide CallLeads, WithCall, WithAppend;
    CallLeadsOne(h, y1, End(y.store.nextXid),
                 y1.(store := WithAppend(y.store, call), clients := y.clients, ended := y1.ended + {y.store.nextXid}));
  }

  /** The transaction is new to both layers. */
  lemma NewClient(h: Hash, y: Calls)
    requires CallsReachable(h, y)
    ensures y.store.nextXid !in y.store.txns && y.store.nextXid !in y.clients
  {
    RejectedInv(h, y);
    StoreIsReachable(h, y);
    XidIsNew(h, y.store);
    hide CallsReachable, IsReachable;
  }

  /** append resolves: in the store's own transaction, or its caller's, an append that nothing stands
      in the way of and that has no snapshot to write is committed. */
  lemma AppendResolves(h: Hash, y: Calls, owner: Owner, call: Call)
    requires CallsReachable(h, y) && Clear(h, y.store, call)
    ensures var t := y.store.nextXid;
            CallLeads(h, y, [Start(owner)] + CallActs(t, call) + [Resolve(t)] + [End(t)],
                      y.(store := WithAppend(y.store, call), ended := y.ended + {t}))
  {
    var t, y1 := y.store.nextXid, Appended(h, y, owner, call);
    var c2 := Client(owner, Settled(owner, Resolved));
    var y2 := y1.(clients := y1.clients[t := c2]);
    var steps := [Start(owner)] + CallActs(t, call);
    assert y1.store.txns[t].phase == Idle;
    hide CallsReachable, WithCall, WithAppend, AnswerOf, CallActs;
    NewClient(h, y);
    StartAndAppend(h, y, owner, call);
    hide Clear;
    CallLeadsOne(h, y1, Resolve(t), y2);
    assert y2.clients - {t} == y.clients;
    EndLeads(h, y, call, y2);
    hide CallLeads;
    CallLeadsThree(h, y, steps, y1, [Resolve(t)], y2, [End(t)], y.(store := WithAppend(y.store, call), ended := y.ended + {t}));
  }

  /** The rejection of an append whose events are written. */
  function RejectionIn(s: State, owner: Owner, call: Call): Rejection {
    Rejection(s.nextXid, owner, s.counter, s.counter + |call.request.events|, Some(AnswerOf(Begun(s), s.nextXid, call)))
  }

  /** The caller has caught that append threw behind its events. */
  function Caught(h: Hash, y: Calls, call: Call): Calls {
    var y1 := Appended(h, y, Caller, call);
    y1.(clients := y1.clients[y.store.nextXid := Client(Caller, Outside)],
        rejected := y.rejected + [RejectionIn(y.store, Caller, call)])
  }

  /** And committed. */
  function Kept(y: Calls, call: Call): Calls {
    y.(store := WithAppend(y.store, call), ended := y.ended + {y.store.nextXid},
       rejected := y.rejected + [RejectionIn(y.store, Caller, call)])
  }

  lemma RejectLeads(h: Hash, y: Calls, call: Call)
    ensures CallLeads(h, Appended(h, y, Caller, call), [Reject(y.store.nextXid)], Caught(h, y, call))
  {
    var t, y1 := y.store.nextXid, Appended(h, y, Caller, call);
    assert y1.store.txns[t].phase == Idle && y1.store.counter == y.store.counter + |call.request.events|;
    hide WithCall, AnswerOf, CallLeads;
    CallLeadsOne(h, y1, Reject(t), Caught(h, y, call));
  }

  lemma CaughtEnds(h: Hash, y: Calls, call: Call)
    requires y.store.nextXid !in y.store.txns && y.store.nextXid !in y.clients
    ensures CallLeads(h, Caught(h, y, call), [End(y.store.nextXid)], Kept(y, call))
  {
    hide CallLeads, WithCall, WithAppend, RejectionIn;
    assert Caught(h, y, call).clients - {y.store.nextXid} == y.clients;
    EndLeads(h, y, call, Caught(h, y, call));
  }

  /** Whatever is appended: when a snapshot's handler throws behind it and the caller catches that
      and commits, append was rejected and its whole batch stays. */
  lemma RejectedAppendWithRows(h: Hash, y: Calls, call: Call)
    requires CallsReachable(h, y) && Clear(h, y.store, call)
    ensures CallLeads(h, y, [Start(Caller)] + CallActs(y.store.nextXid, call) + [Reject(y.store.nextXid)] + [End(y.store.nextXid)],
                      Kept(y, call))
    ensures Leaves(WithAppend(y.store, call).committed, RejectionIn(y.store, Caller, call))
  {
    BlockLeft(y.store, call, RejectionIn(y.store, Caller, call));
    hide CallLeads, CallsReachable, CallActs, Leaves, Caught, Kept, Appended;
    NewClient(h, y);
    StartAndAppend(h, y, Caller, call);
    hide Clear;
    RejectLeads(h, y, call);
    CaughtEnds(h, y, call);
    CallLeadsThree(h, y, [Start(Caller)] + CallActs(y.store.nextXid, call), Appended(h, y, Caller, call),
                   [Reject(y.store.nextXid)], Caught(h, y, call), [End(y.store.nextXid)], Kept(y, call));
  }

  lemma BlockLeft(s: State, call: Call, r: Rejection)
    requires call.request.events != [] && r.txn == s.nextXid && r.start == s.counter && r.end == s.counter + |call.request.events|
    ensures Leaves(WithAppend(s, call).committed, r)
  {
    PositionsSnoc(s.counter, |call.request.events|);
    assert s.counter + 1 in WithAppend(s, call).committed;
  }
}
