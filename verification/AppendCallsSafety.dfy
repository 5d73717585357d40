/** What an append that threw leaves behind. */
module AppendCallsSafety {
  import opened EventTable
  import opened CommitOrder
  import opened CommitOrderSafety
  import opened CommitOrderTheorems
  import opened AppendRuns
  import opened AppendCalls

  // ---- What one step does to one transaction ----

  /** The transaction went on: it keeps its rows and answers, and a failed one stays failed. */
  ghost predicate Moves(x: Txn, x': Txn, counter: nat, counter': nat) {
    && counter <= counter' && x.outcomes <= x'.outcomes && (x.phase == Failed ==> x'.phase == Failed)
    && (forall p :: p in x.rows ==> p in x'.rows)
    && (forall p :: p in x'.rows ==> p in x.rows || counter < p <= counter')
  }

  /** The statement concerns nothing but the transaction and the counter. */
  ghost predicate OnlyTxn(s: State, s': State, t: nat) {
    && t in s'.txns && s'.txns == s.txns[t := s'.txns[t]]
    && s'.committed == s.committed && s'.outcomes == s.outcomes && s'.nextXid == s.nextXid
  }

  /** What a statement that inserts no row does to the call in progress: it fails, goes on with
      the same rows, or is answered. */
  lemma QuietMoves(h: Hash, s: State, t: nat, w: WriteStep)
    requires t in s.txns && WriteEnabled(h, s, t, w) && Quiet(w)
    ensures var x, x' := s.txns[t], Quietly(h, s, t, w);
            x'.rows == x.rows && x.outcomes <= x'.outcomes && (x.phase == Failed ==> x'.phase == Failed) &&
            (InsideCall(w) && x'.phase != Failed && x'.phase != Idle ==> InProgress(x'.phase) == InProgress(x.phase)) &&
            (InsideCall(w) && x'.phase == Idle ==> x'.outcomes != [] && Answers(x.phase, x'.outcomes[|x'.outcomes| - 1]))
  {
    QuietKeepsRows(h, s, t, w);
    hide MaxVersion, VisibleKeys;
  }

  lemma QuietKeepsRows(h: Hash, s: State, t: nat, w: WriteStep)
    requires t in s.txns && WriteEnabled(h, s, t, w) && Quiet(w)
    ensures var x, x' := s.txns[t], Quietly(h, s, t, w);
            x'.rows == x.rows && x.outcomes <= x'.outcomes && (x.phase == Failed ==> x'.phase == Failed)
  {
    hide MaxVersion, VisibleKeys, View;
  }

  /** A stored answer, or that of the rows just written. */
  ghost predicate Answers(p: Phase, answer: Outcome) {
    if answer.duplicate then InProgress(p) == [] else p.Written? && answer.positions == p.positions
  }

  lemma WriteMoves(h: Hash, s: State, t: nat, w: WriteStep)
    requires t in s.txns && WriteEnabled(h, s, t, w) && !w.Commit? && !w.Rollback?
    ensures OnlyTxn(s, ApplyWrite(h, s, t, w), t)
    ensures Moves(s.txns[t], ApplyWrite(h, s, t, w).txns[t], s.counter, ApplyWrite(h, s, t, w).counter)
  {
    if Quiet(w) {
      QuietMoves(h, s, t, w);
      hide Quietly, WriteEnabled;
    } else {
      hide Quietly, Clashes;
    }
  }

  lemma RunningMoves(x: Txn, x': Txn, c: Client, r: Rejection, counter: nat, counter': nat)
    requires RunningOk(x, c, r) && Moves(x, x', counter, counter') && r.end <= counter
    ensures RunningOk(x', c, r)
  {
  }

  lemma AnswerMoves(x: Txn, x': Txn, answer: Outcome, start: nat, counter: nat, counter': nat)
    requires AnswerIn(x, answer, start, counter) && Moves(x, x', counter, counter')
    ensures AnswerIn(x', answer, start, counter')
  {
  }

  /** The rows of a call in progress are there. */
  lemma InProgressThere(h: Hash, s: State, t: nat)
    requires Inv(h, s) && t in s.txns
    ensures Present(s.txns[t], s.counter)
  {
    hide CertInv, LockInv, KeyInv, XidInv, AllNumbered, Ledger, Owed, RowsMatch, Expected;
    assert TxnOk(s.committed, s.keys, s.counter, s.txns[t]);
    var p := s.txns[t].phase;
    if p != Failed {
      assert Accounted(s.txns[t].rows, s.txns[t].outcomes, InProgress(p));
    }
  }

  ghost predicate Present(x: Txn, counter: nat) {
    && (x.phase.Written? ==> x.phase.positions != [])
    && forall p :: p in InProgress(x.phase) ==> p in x.rows && p <= counter
  }

  lemma QuietAppending(x: Txn, x': Txn, c: Client, counter: nat)
    requires c.progress.Appending? && ClientOk(x, c, counter) && Present(x, counter) && x'.rows == x.rows
    requires x.phase == Failed ==> x'.phase == Failed
    requires x'.phase != Failed && x'.phase != Idle ==> InProgress(x'.phase) == InProgress(x.phase)
    requires x'.phase == Idle ==> x'.outcomes != [] && Answers(x.phase, x'.outcomes[|x'.outcomes| - 1])
    ensures ClientOk(x', c.(progress := Progressed(c, x')), counter)
  {
    if x'.phase == Idle {
      var answer := x'.outcomes[|x'.outcomes| - 1];
      assert answer in x'.outcomes;
      if !answer.duplicate {
        assert InProgress(x.phase) == answer.positions;
        assert AnswerIn(x', answer, c.progress.start, counter);
      }
    }
  }

  lemma InsertAppending(x: Txn, c: Client, counter: nat, row: Row)
    requires c.progress.Appending? && ClientOk(x, c, counter) && x.phase.Inserting?
    ensures var p := x.phase;
            var x' := x.(rows := x.rows[counter + 1 := row], phase := Inserting(p.call, p.from, p.positions + [counter + 1]));
            ClientOk(x', c, counter + 1) && Progressed(c, x') == c.progress
  {
    var p := x.phase;
    var p' := Inserting(p.call, p.from, p.positions + [counter + 1]);
    assert forall q :: q in InProgress(p') <==> q in InProgress(p) || q == counter + 1;
  }

  /** A statement of the events' call: afterwards it is still running, or it has been answered. */
  lemma AppendingMoves(h: Hash, s: State, t: nat, w: WriteStep, c: Client)
    requires Inv(h, s) && t in s.txns && WriteEnabled(h, s, t, w) && InsideCall(w)
    requires c.progress.Appending? && ClientOk(s.txns[t], c, s.counter)
    ensures var s' := ApplyWrite(h, s, t, w);
            t in s'.txns && ClientOk(s'.txns[t], c.(progress := Progressed(c, s'.txns[t])), s'.counter)
  {
    if Quiet(w) {
      hide WriteEnabled, Quietly;
      InProgressThere(h, s, t);
      hide Inv, Present, ClientOk, Progressed;
      QuietCallMoves(h, s, t, w, c);
    } else {
      hide Inv, Quietly, Clashes;
      InsertMoves(s, t, c);
    }
  }

  lemma QuietCallMoves(h: Hash, s: State, t: nat, w: WriteStep, c: Client)
    requires t in s.txns && WriteEnabled(h, s, t, w) && InsideCall(w) && Quiet(w) && Present(s.txns[t], s.counter)
    requires c.progress.Appending? && ClientOk(s.txns[t], c, s.counter)
    ensures var x' := Quietly(h, s, t, w);
            ClientOk(x', c.(progress := Progressed(c, x')), s.counter)
  {
    hide Quietly, WriteEnabled, ClientOk, Progressed, Present, Answers, InProgress;
    QuietMoves(h, s, t, w);
    QuietAppending(s.txns[t], Quietly(h, s, t, w), c, s.counter);
  }

  lemma InsertMoves(s: State, t: nat, c: Client)
    requires t in s.txns && s.txns[t].phase.Inserting?
    requires |s.txns[t].phase.positions| < |s.txns[t].phase.call.request.events|
    requires c.progress.Appending? && ClientOk(s.txns[t], c, s.counter)
    ensures var s' := DoInsertRow(s, t);
            t in s'.txns && ClientOk(s'.txns[t], c.(progress := Progressed(c, s'.txns[t])), s'.counter)
  {
    InsertAppending(s.txns[t], c, s.counter, NextRow(t, s.txns[t].phase));
    hide Clashes;
  }

  // ---- Every act keeps the invariant ----

  lemma MoreCounter(x: Txn, c: Client, counter: nat, counter': nat)
    requires ClientOk(x, c, counter) && counter <= counter'
    ensures ClientOk(x, c, counter')
  {
  }

  lemma RejectionMoves(y: Calls, s': State, t: nat, c': Client, r: Rejection)
    requires RejectionOk(y, r) && y.clients.Keys == y.store.txns.Keys && t in y.store.txns && OnlyTxn(y.store, s', t)
    requires Moves(y.store.txns[t], s'.txns[t], y.store.counter, s'.counter)
    requires c'.owner == y.clients[t].owner && (y.clients[t].progress == Rejected ==> c'.progress == Rejected)
    ensures RejectionOk(y.(store := s', clients := y.clients[t := c']), r)
  {
    hide RunningOk;
    if r.txn == t {
      RunningMoves(y.store.txns[t], s'.txns[t], y.clients[t], r, y.store.counter, s'.counter);
      assert RunningOk(s'.txns[t], c', r) by {
        SameRunning(s'.txns[t], y.clients[t], c', r);
      }
    }
  }

  lemma SameRunning(x: Txn, c: Client, c': Client, r: Rejection)
    requires RunningOk(x, c, r) && c'.owner == c.owner && (c.progress == Rejected ==> c'.progress == Rejected)
    ensures RunningOk(x, c', r)
  {
  }

  /** An act of one transaction that neither begins nor ends it. */
  lemma OnlyTxnKeeps(y: Calls, s': State, t: nat, c': Client)
    requires CallInv(y) && t in y.store.txns && OnlyTxn(y.store, s', t)
    requires Moves(y.store.txns[t], s'.txns[t], y.store.counter, s'.counter)
    requires c'.owner == y.clients[t].owner && (y.clients[t].progress == Rejected ==> c'.progress == Rejected)
    requires ClientOk(s'.txns[t], c', s'.counter)
    ensures CallInv(y.(store := s', clients := y.clients[t := c']))
  {
    hide ClientOk, RejectionOk;
    var y' := y.(store := s', clients := y.clients[t := c']);
    forall i | 0 <= i < |y'.rejected| ensures RejectionOk(y', y'.rejected[i]) {
      RejectionMoves(y, s', t, c', y.rejected[i]);
    }
    forall u | u in s'.txns ensures ClientOk(s'.txns[u], y'.clients[u], s'.counter) {
      if u != t {
        MoreCounter(y.store.txns[u], y.clients[u], y.store.counter, s'.counter);
      }
    }
  }

  /** The rejection of the client's append as it stands now. */
  lemma RejectionJoins(y: Calls, t: nat)
    requires CallInv(y) && t < y.store.nextXid && t in y.store.txns && MayReject(y.clients[t].progress, y.store.txns[t].phase)
    ensures var c := y.clients[t];
            RejectionOk(y.(clients := y.clients[t := c.(progress := Settled(c.owner, Rejected))]),
                        RejectionOf(t, c, y.store.counter))
  {
    assert ClientOk(y.store.txns[t], y.clients[t], y.store.counter);
  }

  lemma RejectKeeps(y: Calls, t: nat)
    requires CallInv(y) && t < y.store.nextXid && t in y.store.txns && MayReject(y.clients[t].progress, y.store.txns[t].phase)
    ensures var c := y.clients[t];
            CallInv(y.(clients := y.clients[t := c.(progress := Settled(c.owner, Rejected))],
                       rejected := y.rejected + [RejectionOf(t, c, y.store.counter)]))
  {
    var c := y.clients[t];
    var c' := c.(progress := Settled(c.owner, Rejected));
    RejectionJoins(y, t);
    OnlyTxnKeeps(y, y.store, t, c');
    hide RejectionOk, RejectionOf, ClientOk;
    var y1 := y.(clients := y.clients[t := c']);
    var y2 := y1.(rejected := y.rejected + [RejectionOf(t, c, y.store.counter)]);
    forall i | 0 <= i < |y2.rejected| ensures RejectionOk(y2, y2.rejected[i]) {
      SameRejection(y1, y2, y2.rejected[i]);
    }
  }

  lemma SameRejection(y1: Calls, y2: Calls, r: Rejection)
    requires RejectionOk(y1, r) && y2.store == y1.store && y2.clients == y1.clients && y2.ended == y1.ended
    ensures RejectionOk(y2, r)
  {
  }

  lemma StartKeeps(y: Calls, owner: Owner)
    requires CallInv(y) && XidInv(y.store)
    ensures CallInv(y.(store := Begun(y.store), clients := y.clients[y.store.nextXid := Client(owner, Outside)]))
  {
    var s' := Begun(y.store);
    var y' := y.(store := s', clients := y.clients[y.store.nextXid := Client(owner, Outside)]);
    hide ClientOk, RunningOk, EndedOk;
    assert ClientOk(NewTxn(), Client(owner, Outside), s'.counter) by {
      NewClientOk(owner, s'.counter);
    }
    forall i | 0 <= i < |y'.rejected| ensures RejectionOk(y', y'.rejected[i]) {
      assert RejectionOk(y, y.rejected[i]);
      SameCommitted(y.store, s', y.rejected[i]);
    }
  }

  lemma NewClientOk(owner: Owner, counter: nat)
    ensures ClientOk(NewTxn(), Client(owner, Outside), counter)
  {
  }

  lemma SameCommitted(s: State, s': State, r: Rejection)
    requires s'.committed == s.committed && s'.outcomes == s.outcomes
    ensures EndedOk(s', r) == EndedOk(s, r)
  {
  }

  lemma CertifierKeeps(y: Calls, s': State)
    requires CallInv(y)
    requires s'.txns == y.store.txns && s'.committed == y.store.committed && s'.outcomes == y.store.outcomes
    requires s'.counter == y.store.counter && s'.nextXid == y.store.nextXid
    ensures CallInv(y.(store := s'))
  {
    var y' := y.(store := s');
    hide ClientOk, RunningOk, EndedOk;
    forall i | 0 <= i < |y'.rejected| ensures RejectionOk(y', y'.rejected[i]) {
      assert RejectionOk(y, y.rejected[i]);
      SameCommitted(y.store, s', y.rejected[i]);
    }
  }

  lemma DropKeeps(y: Calls, t: nat)
    requires CallInv(y) && t in y.store.txns
    ensures CallInv(y.(store := Leave(y.store, t), clients := y.clients - {t}))
  {
    var s' := Leave(y.store, t);
    var y' := y.(store := s', clients := y.clients - {t});
    hide ClientOk, RunningOk, EndedOk;
    forall i | 0 <= i < |y'.rejected| ensures RejectionOk(y', y'.rejected[i]) {
      assert RejectionOk(y, y.rejected[i]);
      SameCommitted(y.store, s', y.rejected[i]);
    }
  }

  /** Committing another transaction leaves an ended one's rows as they are. */
  lemma EndedStays(s: State, t: nat, r: Rejection)
    requires XidInv(s) && PositionInv(s) && t in s.txns && r.txn != t && EndedOk(s, r)
    ensures EndedOk(DoCommit(s, t), r)
  {
  }

  /** Committing decides what the transaction's rejected appends leave. */
  lemma RunningEnds(s: State, t: nat, c: Client, r: Rejection)
    requires XidInv(s) && PositionInv(s) && t in s.txns && r.txn == t && RunningOk(s.txns[t], c, r)
    requires s.txns[t].phase == Idle && c.progress != Rejected
    ensures EndedOk(DoCommit(s, t), r)
  {
  }

  lemma EndKeeps(y: Calls, t: nat)
    requires CallInv(y) && XidInv(y.store) && PositionInv(y.store) && t in y.store.txns
    requires y.store.txns[t].phase == Idle && y.clients[t].progress != Rejected
    ensures CallInv(y.(store := DoCommit(y.store, t), clients := y.clients - {t}, ended := y.ended + {t}))
  {
    var s' := DoCommit(y.store, t);
    var y' := y.(store := s', clients := y.clients - {t}, ended := y.ended + {t});
    hide ClientOk, RunningOk, EndedOk, PositionInv;
    forall i | 0 <= i < |y'.rejected| ensures RejectionOk(y', y'.rejected[i]) {
      var r := y.rejected[i];
      assert RejectionOk(y, r);
      if r.txn == t {
        RunningEnds(y.store, t, y.clients[t], r);
      } else if r.txn in y.ended {
        EndedStays(y.store, t, r);
      }
    }
  }

  lemma WorkKeeps(h: Hash, y: Calls, t: nat, w: WriteStep)
    requires CallInv(y) && Inv(h, y.store) && ActEnabled(h, y, Work(t, w))
    ensures CallInv(ApplyAct(h, y, Work(t, w)))
  {
    var s, c := y.store, y.clients[t];
    WorkIs(h, y, t, w);
    assert t in s.txns && ClientOk(s.txns[t], c, s.counter);
    hide Inv, CallInv, ActEnabled, ApplyAct, ApplyWrite, WriteEnabled, Moves, OnlyTxn, ClientOk;
    ClientMoves(h, s, t, w, c);
    var s' := ApplyWrite(h, s, t, w);
    var c' := c.(progress := Progressed(c, s'.txns[t]));
    hide Progressed;
    WriteMoves(h, s, t, w);
    OnlyTxnKeeps(y, s', t, c');
  }

  lemma WorkIs(h: Hash, y: Calls, t: nat, w: WriteStep)
    requires ActEnabled(h, y, Work(t, w))
    ensures t in y.clients && t in y.store.txns && WriteEnabled(h, y.store, t, w) && InsideCall(w)
    ensures var s', c := ApplyWrite(h, y.store, t, w), y.clients[t];
            t in s'.txns &&
            ApplyAct(h, y, Work(t, w)) ==
              y.(store := s', clients := y.clients[t := c.(progress := Progressed(c, s'.txns[t]))])
  {
    WriteMoves(h, y.store, t, w);
    hide Moves, ApplyWrite, WriteEnabled, Progressed;
  }

  lemma ClientMoves(h: Hash, s: State, t: nat, w: WriteStep, c: Client)
    requires Inv(h, s) && t in s.txns && WriteEnabled(h, s, t, w) && InsideCall(w) && ClientOk(s.txns[t], c, s.counter)
    ensures var s' := ApplyWrite(h, s, t, w);
            t in s'.txns && ClientOk(s'.txns[t], c.(progress := Progressed(c, s'.txns[t])), s'.counter)
  {
    WriteMoves(h, s, t, w);
    hide ApplyWrite, WriteEnabled, Inv, Moves;
    if c.progress.Appending? {
      hide ClientOk;
      AppendingMoves(h, s, t, w, c);
    } else if c.progress.Maintaining? {
      AnswerMoves(s.txns[t], ApplyWrite(h, s, t, w).txns[t], c.progress.answer, c.progress.start, s.counter,
                  ApplyWrite(h, s, t, w).counter);
    }
  }

  /** append or one of its snapshot appends takes the stream lock. */
  lemma LockKeeps(h: Hash, y: Calls, t: nat, call: Call, c': Client)
    requires CallInv(y) && t in y.store.txns && WriteEnabled(h, y.store, t, Lock(call))
    requires forall p :: p in y.store.txns[t].rows ==> p <= y.store.counter
    requires (c' == y.clients[t] && c'.progress.Maintaining?) ||
             (c' == y.clients[t].(progress := Appending(y.store.counter)) && y.clients[t].progress == Outside)
    ensures CallInv(y.(store := ApplyWrite(h, y.store, t, Lock(call)), clients := y.clients[t := c']))
  {
    var s := y.store;
    var s' := ApplyWrite(h, s, t, Lock(call));
    WriteMoves(h, s, t, Lock(call));
    assert ClientOk(s.txns[t], y.clients[t], s.counter);
    assert s'.txns[t] == Locking(h, s.txns[t], call) && s'.counter == s.counter;
    assert ClientOk(s'.txns[t], c', s'.counter);
    hide ApplyWrite, WriteEnabled, Moves, OnlyTxn, ClientOk;
    OnlyTxnKeeps(y, s', t, c');
  }

  lemma RejectActKeeps(h: Hash, y: Calls, t: nat)
    requires CallInv(y) && XidInv(y.store) && ActEnabled(h, y, Reject(t))
    ensures CallInv(ApplyAct(h, y, Reject(t)))
  {
    RejectKeeps(y, t);
    if BaseStep(y, Reject(t)).Some? {
      var c := y.clients[t];
      var c' := c.(progress := Settled(c.owner, Rejected));
      var y1 := y.(clients := y.clients[t := c'], rejected := y.rejected + [RejectionOf(t, c, y.store.counter)]);
      var s' := ApplyWrite(h, y.store, t, Catch);
      WriteMoves(h, y.store, t, Catch);
      assert c'.progress == Outside;
      assert ClientOk(s'.txns[t], c', s'.counter);
      hide ApplyWrite, WriteEnabled, Moves, OnlyTxn, ClientOk, CallInv;
      OnlyTxnKeeps(y1, s', t, c');
      assert y1.clients[t := c'] == y1.clients;
    }
  }

  lemma CertifierActKeeps(h: Hash, y: Calls, a: Step)
    requires CallInv(y) && ActEnabled(h, y, Certifier(a))
    ensures CallInv(ApplyAct(h, y, Certifier(a)))
  {
    hide CallInv;
    CertifierKeeps(y, Apply(h, y.store, a));
  }

  lemma OpenKeeps(h: Hash, y: Calls, t: nat, call: Call)
    requires CallInv(y) && PositionInv(y.store) && ActEnabled(h, y, Open(t, call))
    ensures CallInv(ApplyAct(h, y, Open(t, call)))
  {
    LockKeeps(h, y, t, call, y.clients[t].(progress := Appending(y.store.counter)));
    hide CallInv, PositionInv, WriteEnabled;
  }

  lemma MaintainKeeps(h: Hash, y: Calls, t: nat, call: Call)
    requires CallInv(y) && PositionInv(y.store) && ActEnabled(h, y, Maintain(t, call))
    ensures CallInv(ApplyAct(h, y, Maintain(t, call)))
  {
    LockKeeps(h, y, t, call, y.clients[t]);
    hide CallInv, PositionInv, WriteEnabled;
    assert y.clients[t := y.clients[t]] == y.clients;
  }

  lemma ResolveKeeps(h: Hash, y: Calls, t: nat)
    requires CallInv(y) && ActEnabled(h, y, Resolve(t))
    ensures CallInv(ApplyAct(h, y, Resolve(t)))
  {
    OnlyTxnKeeps(y, y.store, t, y.clients[t].(progress := Settled(y.clients[t].owner, Resolved)));
  }

  lemma ClosingKeeps(h: Hash, y: Calls, a: Act)
    requires CallInv(y) && XidInv(y.store) && PositionInv(y.store) && ActEnabled(h, y, a) && (a.End? || a.Drop? || a.Start?)
    ensures CallInv(ApplyAct(h, y, a))
  {
    match a
    case Start(owner) => StartKeeps(y, owner);
    case End(t) => EndKeeps(y, t);
    case Drop(t) => DropKeeps(y, t);
    hide CallInv, XidInv, PositionInv;
  }

  lemma ActKeepsCallInv(h: Hash, y: Calls, a: Act)
    requires CallInv(y) && Inv(h, y.store) && ActEnabled(h, y, a)
    ensures CallInv(ApplyAct(h, y, a))
  {
    assert XidInv(y.store) && PositionInv(y.store);
    hide *;
    match a
    case Open(t, call) => OpenKeeps(h, y, t, call);
    case Work(t, w) => WorkKeeps(h, y, t, w);
    case Maintain(t, call) => MaintainKeeps(h, y, t, call);
    case Resolve(t) => ResolveKeeps(h, y, t);
    case Reject(t) => RejectActKeeps(h, y, t);
    case Certifier(a) => CertifierActKeeps(h, y, a);
    case _ => ClosingKeeps(h, y, a);
  }

  lemma ActKeepsInv(h: Hash, y: Calls, a: Act)
    requires CallInv(y) && Inv(h, y.store) && ActEnabled(h, y, a)
    ensures CallInv(ApplyAct(h, y, a)) && Inv(h, ApplyAct(h, y, a).store)
  {
    hide CallInv, Inv, ApplyAct, ActEnabled;
    ActKeepsCallInv(h, y, a);
    StoreKeepsInv(h, y, a);
    StoreOfAct(h, y, a);
  }

  lemma StoreOfAct(h: Hash, y: Calls, a: Act)
    requires ActEnabled(h, y, a)
    ensures ApplyAct(h, y, a).store == StoreAfter(h, y, a)
  {
    hide StoreAfter, Enabled;
  }

  lemma StoreKeepsInv(h: Hash, y: Calls, a: Act)
    requires Inv(h, y.store) && ActEnabled(h, y, a)
    ensures Inv(h, StoreAfter(h, y, a))
  {
    hide Inv, Apply, Enabled, BaseStep, ActAllowed;
    if BaseStep(y, a).Some? {
      StepKeepsInv(h, y.store, BaseStep(y, a).value);
    }
  }

  lemma {:induction false} ActsKeepInv(h: Hash, y: Calls, acts: seq<Act>)
    requires CallInv(y) && Inv(h, y.store) && CallRuns(h, y, acts)
    ensures CallInv(CallsAfter(h, y, acts)) && Inv(h, CallsAfter(h, y, acts).store)
    decreases |acts|
  {
    hide Inv, CallInv, ActEnabled, ApplyAct;
    if acts != [] {
      ActKeepsInv(h, y, acts[0]);
      ActsKeepInv(h, ApplyAct(h, y, acts[0]), acts[1..]);
    }
  }

  // ---- The result ----

  lemma RejectedInv(h: Hash, y: Calls)
    requires CallsReachable(h, y)
    ensures CallInv(y)
  {
    InitInv(h);
    assert CallInv(InitCalls());
    hide Inv, CallInv, CallRuns, CallsAfter, InitCalls;
    var acts :| CallRuns(h, InitCalls(), acts) && CallsAfter(h, InitCalls(), acts) == y;
    ActsKeepInv(h, InitCalls(), acts);
  }

  /** An append that threw has left rows if and only if its events had been written, so that it
      was a snapshot update that failed, and its caller's own transaction has since committed.
      Then the whole batch is there, as the answer of a committed call. */
  lemma RejectedAppendLeaves(h: Hash, y: Calls, i: nat)
    requires CallsReachable(h, y) && i < |y.rejected|
    ensures var r := y.rejected[i];
            (Leaves(y.store.committed, r) <==> r.answer.Some? && r.owner == Caller && r.txn in y.ended) &&
            (Leaves(y.store.committed, r) ==>
               r.answer.value in y.store.outcomes && forall p :: p in r.answer.value.positions ==> p in y.store.committed)
  {
    RejectedInv(h, y);
    var r := y.rejected[i];
    assert RejectionOk(y, r);
    if r.txn in y.ended && r.answer.Some? {
      var p := r.answer.value.positions[0];
      assert p in r.answer.value.positions;
    }
  }

  // ---- Runs of append are runs of the protocol ----

  lemma {:induction false} ActsReach(h: Hash, y: Calls, acts: seq<Act>)
    requires IsReachable(h, y.store) && CallRuns(h, y, acts)
    ensures IsReachable(h, CallsAfter(h, y, acts).store)
    decreases |acts|
  {
    hide IsReachable, Enabled, Apply;
    if acts != [] {
      var step := BaseStep(y, acts[0]);
      if step.Some? {
        StepReaches(h, y.store, step.value);
      }
      ActsReach(h, ApplyAct(h, y, acts[0]), acts[1..]);
    }
  }

  /** Whatever appends, snapshot appends and their callers do is a run of the protocol: all that
      holds of its reachable states holds here. */
  lemma StoreIsReachable(h: Hash, y: Calls)
    requires CallsReachable(h, y)
    ensures IsReachable(h, y.store)
  {
    assert IsReachable(h, Init()) by {
      assert Runs(h, Init(), []) && After(h, Init(), []) == Init();
    }
    hide IsReachable, CallRuns, CallsAfter;
    var acts :| CallRuns(h, InitCalls(), acts) && CallsAfter(h, InitCalls(), acts) == y;
    ActsReach(h, InitCalls(), acts);
  }
}
