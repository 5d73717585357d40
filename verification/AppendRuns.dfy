/** What becomes of an append that nobody stands in the way of: it goes through, is answered from
    its key, or is refused, and exactly what it leaves. */
module AppendRuns {
  import opened Options
  import opened EventTable
  import opened OutboxInsert
  import opened CommitOrder
  import opened CommitOrderSafety
  import opened CommitOrderTheorems

  // ---- Runs by their ends ----

  /** The steps are possible from s and end in s'. */
  ghost predicate Leads(h: Hash, s: State, steps: seq<Step>, s': State) {
    Runs(h, s, steps) && After(h, s, steps) == s'
  }

  lemma {:induction false} LeadsJoin(h: Hash, s: State, a: seq<Step>, s1: State, b: seq<Step>, s2: State)
    requires Leads(h, s, a, s1) && Leads(h, s1, b, s2)
    ensures Leads(h, s, a + b, s2)
    decreases |a|
  {
    hide Enabled, Apply;
    if a == [] {
      assert a + b == b;
    } else {
      LeadsJoin(h, Apply(h, s, a[0]), a[1..], s1, b, s2);
      assert (a + b)[1..] == a[1..] + b;
    }
  }

  lemma LeadsOne(h: Hash, s: State, a: Step, s': State)
    requires Enabled(h, s, a) && Apply(h, s, a) == s'
    ensures Leads(h, s, [a], s')
  {
    hide Enabled, Apply;
    RunsCons(h, s, a, []);
    assert [a] + [] == [a];
  }

  // ---- The events of one call ----

  /** The first k positions handed out behind a counter. */
  function PositionsFrom(counter: nat, k: nat): seq<nat> {
    seq(k, i => counter + 1 + i)
  }

  /** The first k events of the call behind a head, at the positions behind a counter. */
  function Block(call: Call, head: nat, counter: nat, t: nat, k: nat): Table
    requires k <= |call.request.events|
  {
    map p | p in PositionsFrom(counter, k) ::
      Row(call.stream, head + (p - counter), call.request.events[p - counter - 1], t)
  }

  /** The head of a stream as a transaction sees it: how many events it has. */
  function Head(s: State, t: nat, stream: string): nat
    requires t in s.txns
  {
    |StreamLog(View(s, t), stream, s.counter)|
  }

  /** The transaction is between calls; nobody else holds the stream's lock or an uncommitted equal
      key, and no certifier the fence. */
  ghost predicate Unhindered(h: Hash, s: State, t: nat, call: Call) {
    && t in s.txns && s.txns[t].phase == Idle && s.exclusive == None
    && call.request.events != [] && call.expected >= -1
    && forall u :: u in s.txns && u != t ==>
         h(call.stream) !in s.txns[u].locks && (call.key.Some? ==> call.key.value !in s.txns[u].keys)
  }

  /** Nothing is stored under the call's key. */
  predicate NewKey(s: State, t: nat, call: Call)
    requires t in s.txns
  {
    call.key.Some? ==> call.key.value !in VisibleKeys(s, t)
  }

  /** The expected version names the head; 0 expects nothing. */
  predicate ExpectsHead(s: State, t: nat, call: Call)
    requires t in s.txns
  {
    && (call.expected > 0 ==> call.expected == Head(s, t, call.stream))
    && (call.expected == -1 ==> Head(s, t, call.stream) == 0)
  }

  function Inserts(t: nat, k: nat): seq<Step> {
    seq(k, i => Write(t, InsertRow))
  }

  /** The statements of one call that goes through. */
  function CallSteps(t: nat, call: Call): seq<Step> {
    [Write(t, Lock(call)), Write(t, CheckKey), Write(t, Validate), Write(t, Fence)] +
    Inserts(t, |call.request.events|) + [Write(t, WriteOutbox), Write(t, Record)]
  }

  /** The store when transaction t has drawn k positions. */
  function At(s: State, t: nat, x: Txn, k: nat): State {
    s.(counter := s.counter + k, txns := s.txns[t := x])
  }

  /** The transaction after it: the block behind the head, its outbox rows, the key's record and
      one answer. */
  function WithCall(h: Hash, s: State, t: nat, call: Call): State
    requires t in s.txns
  {
    var x, n, head := s.txns[t], |call.request.events|, Head(s, t, call.stream);
    var positions := PositionsFrom(s.counter, n);
    At(s, t, Txn(x.locks + {h(call.stream)}, true, x.rows + Block(call, head, s.counter, t, n),
                 if call.key == None then x.keys
                 else x.keys[call.key.value := KeyRecord(call.stream, call.request, head + 1, head + n, positions)],
                 x.outbox + OutboxRows(call.request.events, positions, call.request.topics),
                 x.outcomes + [Outcome(call, head + 1, head + n, positions, false)], Idle), n)
  }

  // ---- Step by step ----

  lemma QuietLeads(h: Hash, s: State, t: nat, x: Txn, k: nat, w: WriteStep, x': Txn)
    requires WriteEnabled(h, At(s, t, x, k), t, w) && Quiet(w)
    requires x' == Quietly(h, At(s, t, x, k), t, w)
    ensures Leads(h, At(s, t, x, k), [Write(t, w)], At(s, t, x', k))
  {
    hide WriteEnabled, Quietly, Leads;
    assert At(s, t, x, k).txns[t := x'] == At(s, t, x', k).txns;
    LeadsOne(h, At(s, t, x, k), Write(t, w), At(s, t, x', k));
  }

  /** The transaction with the stream locked. */
  function Holding(h: Hash, x: Txn, call: Call, phase: Phase): Txn {
    x.(locks := x.locks + {h(call.stream)}, phase := phase)
  }

  lemma LockLeads(h: Hash, s: State, t: nat, call: Call)
    requires Unhindered(h, s, t, call)
    ensures Leads(h, s, [Write(t, Lock(call))], At(s, t, Holding(h, s.txns[t], call, Locked(call)), 0))
  {
    assert s == At(s, t, s.txns[t], 0);
    hide Leads;
    QuietLeads(h, s, t, s.txns[t], 0, Lock(call), Holding(h, s.txns[t], call, Locked(call)));
  }

  /** A key without a stored answer is let through. */
  lemma CheckKeyLeads(h: Hash, s: State, t: nat, call: Call)
    requires t in s.txns && NewKey(s, t, call)
    ensures Leads(h, At(s, t, Holding(h, s.txns[t], call, Locked(call)), 0), [Write(t, CheckKey)],
                  At(s, t, Holding(h, s.txns[t], call, Fresh(call)), 0))
  {
    hide Leads;
    QuietLeads(h, s, t, Holding(h, s.txns[t], call, Locked(call)), 0, CheckKey, Holding(h, s.txns[t], call, Fresh(call)));
  }

  /** The true head is let through, and nothing else. */
  lemma ValidateLeads(h: Hash, s: State, t: nat, call: Call)
    requires t in s.txns && Numbered(View(s, t), call.stream, s.counter)
    ensures Leads(h, At(s, t, Holding(h, s.txns[t], call, Fresh(call)), 0), [Write(t, Validate)],
                  At(s, t, Holding(h, s.txns[t], call, if ExpectsHead(s, t, call) then Inserting(call, Head(s, t, call.stream) + 1, [])
                                                       else Refused), 0))
  {
    hide Leads;
    MaxVersionIsLength(View(s, t), call.stream, s.counter);
    var x := Holding(h, s.txns[t], call, Fresh(call));
    assert View(At(s, t, x, 0), t) == View(s, t);
    QuietLeads(h, s, t, x, 0, Validate,
               x.(phase := if ExpectsHead(s, t, call) then Inserting(call, Head(s, t, call.stream) + 1, []) else Refused));
  }

  /** The transaction with k rows of the block written. */
  function Writing(h: Hash, s: State, t: nat, call: Call, k: nat): Txn
    requires t in s.txns && k <= |call.request.events|
  {
    var x, head := s.txns[t], Head(s, t, call.stream);
    Holding(h, x, call, Inserting(call, head + 1, PositionsFrom(s.counter, k)))
      .(fence := true, rows := x.rows + Block(call, head, s.counter, t, k))
  }

  lemma FenceLeads(h: Hash, s: State, t: nat, call: Call)
    requires Unhindered(h, s, t, call)
    ensures Leads(h, At(s, t, Holding(h, s.txns[t], call, Inserting(call, Head(s, t, call.stream) + 1, [])), 0),
                  [Write(t, CommitOrder.Fence)], At(s, t, Writing(h, s, t, call, 0), 0))
  {
    hide Leads, Head;
    assert PositionsFrom(s.counter, 0) == [];
    QuietLeads(h, s, t, Holding(h, s.txns[t], call, Inserting(call, Head(s, t, call.stream) + 1, [])), 0, CommitOrder.Fence,
               Writing(h, s, t, call, 0));
  }

  lemma PositionsSnoc(counter: nat, k: nat)
    ensures PositionsFrom(counter, k + 1) == PositionsFrom(counter, k) + [counter + k + 1]
    ensures forall p :: p in PositionsFrom(counter, k) <==> counter < p <= counter + k
  {
    forall p | counter < p <= counter + k ensures p in PositionsFrom(counter, k) {
      assert PositionsFrom(counter, k)[p - counter - 1] == p;
    }
  }

  lemma BlockSnoc(rows: Table, call: Call, head: nat, counter: nat, t: nat, k: nat)
    requires k < |call.request.events|
    ensures rows + Block(call, head, counter, t, k + 1) ==
              (rows + Block(call, head, counter, t, k))[counter + k + 1 := Row(call.stream, head + k + 1, call.request.events[k], t)]
  {
    PositionsSnoc(counter, k);
  }

  /** The next version is free among the rows the transaction sees and those of every other. */
  lemma NoClash(h: Hash, s: State, t: nat, call: Call, k: nat, u: nat)
    requires Inv(h, s) && Unhindered(h, s, t, call) && k < |call.request.events|
    ensures !Clashes(s.committed + (s.txns[t].rows + Block(call, Head(s, t, call.stream), s.counter, t, k)), call.stream,
                     Head(s, t, call.stream) + 1 + k)
    ensures u in s.txns && u != t ==> !Clashes(s.txns[u].rows, call.stream, Head(s, t, call.stream) + 1 + k)
  {
    hide CertInv, AccountInv, Ledger, PhaseOk, OutboxOk;
    assert TxnOk(s.committed, s.keys, s.counter, s.txns[t]);
    assert Numbered(View(s, t), call.stream, s.counter);
    NumberedIsBijection(View(s, t), call.stream, s.counter);
    PositionsSnoc(s.counter, k);
    hide Numbered, AllNumbered;
  }

  lemma InsertLeads(h: Hash, s: State, t: nat, call: Call, k: nat)
    requires Inv(h, s) && Unhindered(h, s, t, call) && k < |call.request.events|
    ensures Leads(h, At(s, t, Writing(h, s, t, call, k), k), [Write(t, InsertRow)], At(s, t, Writing(h, s, t, call, k + 1), k + 1))
  {
    hide Inv, Leads, Clashes, Head;
    var y, y' := At(s, t, Writing(h, s, t, call, k), k), At(s, t, Writing(h, s, t, call, k + 1), k + 1);
    forall u | u in y.txns && u != t
      ensures !Clashes(y.txns[u].rows, call.stream, Head(s, t, call.stream) + 1 + k)
    {
      NoClash(h, s, t, call, k, u);
    }
    NoClash(h, s, t, call, k, t);
    BlockSnoc(s.txns[t].rows, call, Head(s, t, call.stream), s.counter, t, k);
    PositionsSnoc(s.counter, k);
    hide Block, PositionsFrom;
    assert y.txns[t := y'.txns[t]] == y'.txns;
    assert WriteEnabled(h, y, t, InsertRow);
    hide Unhindered, WriteEnabled;
    LeadsOne(h, y, Write(t, InsertRow), y');
  }

  lemma {:induction false} InsertsLead(h: Hash, s: State, t: nat, call: Call, k: nat)
    requires Inv(h, s) && Unhindered(h, s, t, call) && k <= |call.request.events|
    ensures Leads(h, At(s, t, Writing(h, s, t, call, 0), 0), Inserts(t, k), At(s, t, Writing(h, s, t, call, k), k))
  {
    hide Inv, Writing, At;
    if k == 0 {
    } else {
      hide Leads;
      InsertsLead(h, s, t, call, k - 1);
      InsertLeads(h, s, t, call, k - 1);
      hide Unhindered;
      LeadsJoin(h, At(s, t, Writing(h, s, t, call, 0), 0), Inserts(t, k - 1), At(s, t, Writing(h, s, t, call, k - 1), k - 1),
                [Write(t, InsertRow)], At(s, t, Writing(h, s, t, call, k), k));
      assert Inserts(t, k - 1) + [Write(t, InsertRow)] == Inserts(t, k);
    }
  }

  /** The transaction with the rows and the outbox written. */
  function Wrote(h: Hash, s: State, t: nat, call: Call): Txn
    requires t in s.txns
  {
    var x := Writing(h, s, t, call, |call.request.events|);
    x.(outbox := x.outbox + OutboxRows(call.request.events, x.phase.positions, call.request.topics),
       phase := Written(call, x.phase.from, x.phase.positions))
  }

  lemma OutboxLeads(h: Hash, s: State, t: nat, call: Call)
    requires t in s.txns
    ensures var n := |call.request.events|;
            Leads(h, At(s, t, Writing(h, s, t, call, n), n), [Write(t, WriteOutbox)], At(s, t, Wrote(h, s, t, call), n))
  {
    hide Leads, Block, Head, OutboxRows;
    var n := |call.request.events|;
    QuietLeads(h, s, t, Writing(h, s, t, call, n), n, WriteOutbox, Wrote(h, s, t, call));
  }

  lemma RecordLeads(h: Hash, s: State, t: nat, call: Call)
    requires Unhindered(h, s, t, call) && NewKey(s, t, call)
    ensures Leads(h, At(s, t, Wrote(h, s, t, call), |call.request.events|), [Write(t, Record)], WithCall(h, s, t, call))
  {
    hide Leads, Block, Head, OutboxRows;
    var n := |call.request.events|;
    QuietLeads(h, s, t, Wrote(h, s, t, call), n, Record, WithCall(h, s, t, call).txns[t]);
  }

  /** One piece more of a list of steps. */
  lemma Joined(h: Hash, s: State, steps: seq<Step>, k: nat, s1: State, piece: seq<Step>, s2: State)
    requires k + |piece| <= |steps| && piece == steps[k..k + |piece|]
    requires Leads(h, s, steps[..k], s1) && Leads(h, s1, piece, s2)
    ensures Leads(h, s, steps[..k + |piece|], s2)
  {
    hide Leads;
    LeadsJoin(h, s, steps[..k], s1, piece, s2);
    assert steps[..k] + piece == steps[..k + |piece|];
  }

  lemma CallPieces(t: nat, call: Call)
    ensures var steps, n := CallSteps(t, call), |call.request.events|;
            |steps| == n + 6 && steps[..1] == [Write(t, Lock(call))] && steps[1..2] == [Write(t, CheckKey)] &&
            steps[2..3] == [Write(t, Validate)] && steps[3..4] == [Write(t, CommitOrder.Fence)] &&
            steps[4..4 + n] == Inserts(t, n) && steps[4 + n..5 + n] == [Write(t, WriteOutbox)] &&
            steps[5 + n..6 + n] == [Write(t, Record)]
  {
  }

  /** Up to the first insert. */
  lemma OpeningLeads(h: Hash, s: State, t: nat, call: Call)
    requires Inv(h, s) && Unhindered(h, s, t, call) && NewKey(s, t, call) && ExpectsHead(s, t, call)
    ensures Leads(h, s, CallSteps(t, call)[..4], At(s, t, Writing(h, s, t, call, 0), 0))
  {
    OwnNumbered(h, s, t, call.stream);
    hide Inv, Leads, Writing, Holding, At, CallSteps, VisibleKeys, Head, Numbered;
    CallPieces(t, call);
    LockLeads(h, s, t, call);
    CheckKeyLeads(h, s, t, call);
    ValidateLeads(h, s, t, call);
    FenceLeads(h, s, t, call);
    var x, from, steps := s.txns[t], Head(s, t, call.stream) + 1, CallSteps(t, call);
    var y1, y2 := At(s, t, Holding(h, x, call, Locked(call)), 0), At(s, t, Holding(h, x, call, Fresh(call)), 0);
    var y3, y4 := At(s, t, Holding(h, x, call, Inserting(call, from, [])), 0), At(s, t, Writing(h, s, t, call, 0), 0);
    hide Unhindered;
    Joined(h, s, steps, 1, y1, [Write(t, CheckKey)], y2);
    Joined(h, s, steps, 2, y2, [Write(t, Validate)], y3);
    Joined(h, s, steps, 3, y3, [Write(t, CommitOrder.Fence)], y4);
  }

  lemma OwnNumbered(h: Hash, s: State, t: nat, stream: string)
    requires Inv(h, s) && t in s.txns
    ensures Numbered(View(s, t), stream, s.counter)
  {
    hide CertInv, AccountInv, Ledger, PhaseOk, OutboxOk, Numbered;
    assert TxnOk(s.committed, s.keys, s.counter, s.txns[t]);
  }

  /** Everything between the fence and the record. */
  lemma WritingLeads(h: Hash, s: State, t: nat, call: Call)
    requires Inv(h, s) && Unhindered(h, s, t, call) && NewKey(s, t, call) && ExpectsHead(s, t, call)
    ensures Leads(h, s, CallSteps(t, call)[..5 + |call.request.events|], At(s, t, Wrote(h, s, t, call), |call.request.events|))
  {
    hide Leads, CallSteps, Writing, Wrote, At, Inserts, Head, VisibleKeys, NewKey, ExpectsHead;
    var n, steps := |call.request.events|, CallSteps(t, call);
    OpeningLeads(h, s, t, call);
    InsertsLead(h, s, t, call, n);
    assert t in s.txns;
    OutboxLeads(h, s, t, call);
    CallPieces(t, call);
    hide Inv, Unhindered;
    Joined(h, s, steps, 4, At(s, t, Writing(h, s, t, call, 0), 0), Inserts(t, n), At(s, t, Writing(h, s, t, call, n), n));
    Joined(h, s, steps, 4 + n, At(s, t, Writing(h, s, t, call, n), n), [Write(t, WriteOutbox)],
           At(s, t, Wrote(h, s, t, call), n));
  }

  // ---- What becomes of a call ----

  /** The call goes through: in any reachable state, for a transaction with any calls behind it and
      whatever else is going on, an append with a new key or none that expects the true head runs
      statement by statement and leaves exactly its block behind the head, the outbox rows, the
      key's record and one answer. */
  lemma CallAppends(h: Hash, s: State, t: nat, call: Call)
    requires IsReachable(h, s) && Unhindered(h, s, t, call) && NewKey(s, t, call) && ExpectsHead(s, t, call)
    ensures Leads(h, s, CallSteps(t, call), WithCall(h, s, t, call))
  {
    hide IsReachable, Inv, Leads, CallSteps, Wrote, At, Head, VisibleKeys, ExpectsHead, NewKey, WithCall;
    ReachableInv(h, s);
    WritingLeads(h, s, t, call);
    LastLeads(h, s, t, call);
  }

  lemma LastLeads(h: Hash, s: State, t: nat, call: Call)
    requires Unhindered(h, s, t, call) && NewKey(s, t, call)
    requires Leads(h, s, CallSteps(t, call)[..5 + |call.request.events|], At(s, t, Wrote(h, s, t, call), |call.request.events|))
    ensures Leads(h, s, CallSteps(t, call), WithCall(h, s, t, call))
  {
    hide Leads, CallSteps, Wrote, At, Head, VisibleKeys, NewKey, WithCall;
    var n, steps := |call.request.events|, CallSteps(t, call);
    RecordLeads(h, s, t, call);
    assert t in s.txns;
    hide Unhindered;
    CallPieces(t, call);
    Joined(h, s, steps, 5 + n, At(s, t, Wrote(h, s, t, call), n), [Write(t, Record)], WithCall(h, s, t, call));
    assert steps[..6 + n] == steps;
  }

  /** The call is refused: with a head it did not expect, or a key under which another stream or
      request is stored.  A caller that catches that has its transaction as it was, with one more
      lock. */
  lemma CallRefused(h: Hash, s: State, t: nat, call: Call) returns (steps: seq<Step>)
    requires IsReachable(h, s) && Unhindered(h, s, t, call)
    requires if NewKey(s, t, call) then !ExpectsHead(s, t, call)
             else var r := VisibleKeys(s, t)[call.key.value]; r.stream != call.stream || r.request != call.request
    ensures Leads(h, s, steps, At(s, t, s.txns[t].(locks := s.txns[t].locks + {h(call.stream)}), 0))
  {
    hide IsReachable, Inv, Leads, Head, ExpectsHead, Numbered, At;
    ReachableInv(h, s);
    OwnNumbered(h, s, t, call.stream);
    LockLeads(h, s, t, call);
    var y1, y2 := At(s, t, Holding(h, s.txns[t], call, Locked(call)), 0), At(s, t, Holding(h, s.txns[t], call, Refused), 0);
    var refusing := RefusalLeads(h, s, t, call);
    CatchLeads(h, s, t, call);
    hide Unhindered, NewKey, VisibleKeys, Holding;
    steps := [Write(t, Lock(call))] + refusing + [Write(t, Catch)];
    LeadsJoin(h, s, [Write(t, Lock(call))], y1, refusing, y2);
    LeadsJoin(h, s, [Write(t, Lock(call))] + refusing, y2, [Write(t, Catch)],
              At(s, t, s.txns[t].(locks := s.txns[t].locks + {h(call.stream)}), 0));
  }

  lemma RefusalLeads(h: Hash, s: State, t: nat, call: Call) returns (steps: seq<Step>)
    requires t in s.txns && Numbered(View(s, t), call.stream, s.counter)
    requires if NewKey(s, t, call) then !ExpectsHead(s, t, call)
             else var r := VisibleKeys(s, t)[call.key.value]; r.stream != call.stream || r.request != call.request
    ensures Leads(h, At(s, t, Holding(h, s.txns[t], call, Locked(call)), 0), steps,
                  At(s, t, Holding(h, s.txns[t], call, Refused), 0))
  {
    hide Leads, Head, ExpectsHead, Numbered;
    var x := s.txns[t];
    if NewKey(s, t, call) {
      CheckKeyLeads(h, s, t, call);
      ValidateLeads(h, s, t, call);
      hide NewKey, At, Holding;
      LeadsJoin(h, At(s, t, Holding(h, x, call, Locked(call)), 0), [Write(t, CheckKey)],
                At(s, t, Holding(h, x, call, Fresh(call)), 0), [Write(t, Validate)], At(s, t, Holding(h, x, call, Refused), 0));
      steps := [Write(t, CheckKey)] + [Write(t, Validate)];
    } else {
      QuietLeads(h, s, t, Holding(h, x, call, Locked(call)), 0, CheckKey, Holding(h, x, call, Refused));
      steps := [Write(t, CheckKey)];
    }
  }

  lemma CatchLeads(h: Hash, s: State, t: nat, call: Call)
    requires Unhindered(h, s, t, call)
    ensures Leads(h, At(s, t, Holding(h, s.txns[t], call, Refused), 0), [Write(t, Catch)],
                  At(s, t, s.txns[t].(locks := s.txns[t].locks + {h(call.stream)}), 0))
  {
    hide Leads;
    QuietLeads(h, s, t, Holding(h, s.txns[t], call, Refused), 0, Catch, s.txns[t].(locks := s.txns[t].locks + {h(call.stream)}));
  }

  /** The call is answered from its key: the stored answer, and nothing else but the lock. */
  lemma CallAnswered(h: Hash, s: State, t: nat, call: Call)
    requires Unhindered(h, s, t, call) && !NewKey(s, t, call)
    requires var r := VisibleKeys(s, t)[call.key.value]; r.stream == call.stream && r.request == call.request
    ensures var x, r := s.txns[t], VisibleKeys(s, t)[call.key.value];
            Leads(h, s, [Write(t, Lock(call)), Write(t, CheckKey)],
                  At(s, t, x.(locks := x.locks + {h(call.stream)},
                              outcomes := x.outcomes + [Outcome(call, r.from, r.to, r.positions, true)]), 0))
  {
    var x, r := s.txns[t], VisibleKeys(s, t)[call.key.value];
    var x' := x.(locks := x.locks + {h(call.stream)}, outcomes := x.outcomes + [Outcome(call, r.from, r.to, r.positions, true)]);
    hide Leads;
    LockLeads(h, s, t, call);
    QuietLeads(h, s, t, Holding(h, x, call, Locked(call)), 0, CheckKey, x');
    LeadsJoin(h, s, [Write(t, Lock(call))], At(s, t, Holding(h, x, call, Locked(call)), 0), [Write(t, CheckKey)], At(s, t, x', 0));
    assert [Write(t, Lock(call))] + [Write(t, CheckKey)] == [Write(t, Lock(call)), Write(t, CheckKey)];
  }

  // ---- A transaction with one append ----

  function CommittedHead(s: State, stream: string): nat {
    |StreamLog(s.committed, stream, s.counter)|
  }

  /** Nothing stands in the way of a transaction with this append: nobody holds the stream's lock or
      an uncommitted equal key and no certifier the fence, the key is new or absent, and the
      expected version names the head. */
  ghost predicate Clear(h: Hash, s: State, call: Call) {
    && s.exclusive == None && call.request.events != [] && call.expected >= -1
    && (forall u :: u in s.txns ==>
          h(call.stream) !in s.txns[u].locks && (call.key.Some? ==> call.key.value !in s.txns[u].keys))
    && (call.key.Some? ==> call.key.value !in s.keys)
    && (call.expected > 0 ==> call.expected == CommittedHead(s, call.stream))
    && (call.expected == -1 ==> CommittedHead(s, call.stream) == 0)
  }

  /** The store after it. */
  function WithAppend(s: State, call: Call): State {
    var n, head := |call.request.events|, CommittedHead(s, call.stream);
    var positions := PositionsFrom(s.counter, n);
    s.(counter := s.counter + n, nextXid := s.nextXid + 1,
       committed := s.committed + Block(call, head, s.counter, s.nextXid, n),
       outbox := s.outbox + OutboxRows(call.request.events, positions, call.request.topics),
       keys := if call.key == None then s.keys
               else s.keys[call.key.value := KeyRecord(call.stream, call.request, head + 1, head + n, positions)],
       outcomes := s.outcomes + [Outcome(call, head + 1, head + n, positions, false)])
  }

  lemma {:induction false} RunsSnoc(h: Hash, s: State, steps: seq<Step>, a: Step)
    requires Runs(h, s, steps) && Enabled(h, After(h, s, steps), a)
    ensures Runs(h, s, steps + [a]) && After(h, s, steps + [a]) == Apply(h, After(h, s, steps), a)
    decreases |steps|
  {
    hide Enabled, Apply;
    if steps == [] {
      RunsCons(h, s, a, []);
      assert steps + [a] == [a] + [];
    } else {
      RunsSnoc(h, Apply(h, s, steps[0]), steps[1..], a);
      assert (steps + [a])[1..] == steps[1..] + [a];
    }
  }

  lemma StepReaches(h: Hash, s: State, a: Step)
    requires IsReachable(h, s) && Enabled(h, s, a)
    ensures IsReachable(h, Apply(h, s, a))
  {
    hide Runs, After, Enabled, Apply, Init;
    var steps :| Runs(h, Init(), steps) && After(h, Init(), steps) == s;
    RunsSnoc(h, Init(), steps, a);
  }

  lemma ClearForNew(h: Hash, s: State, call: Call)
    requires IsReachable(h, s) && Clear(h, s, call)
    ensures s.nextXid !in s.txns && IsReachable(h, Begun(s)) && Leads(h, s, [Begin], Begun(s))
    ensures Unhindered(h, Begun(s), s.nextXid, call) && NewKey(Begun(s), s.nextXid, call)
    ensures ExpectsHead(Begun(s), s.nextXid, call)
  {
    XidIsNew(h, s);
    StepReaches(h, s, Begin);
    LeadsOne(h, s, Begin, Begun(s));
    assert View(Begun(s), s.nextXid) == s.committed && VisibleKeys(Begun(s), s.nextXid) == s.keys;
  }

  /** A transaction with one append runs and commits, from any reachable state in which nothing
      stands in its way, and leaves exactly its block behind the head, the outbox rows, the key's
      record and one answer. */
  lemma AppendSucceeds(h: Hash, s: State, call: Call)
    requires IsReachable(h, s) && Clear(h, s, call)
    ensures Leads(h, s, [Begin] + CallSteps(s.nextXid, call) + [Write(s.nextXid, Commit)], WithAppend(s, call))
  {
    var t, s1 := s.nextXid, Begun(s);
    hide IsReachable, Clear, Unhindered, NewKey, ExpectsHead, Leads, Runs, After;
    ClearForNew(h, s, call);
    CallAppends(h, s1, t, call);
    CommitLeads(h, s, call);
    hide CallSteps, WithCall, WithAppend, Begun;
    LeadsJoin(h, s, [Begin], s1, CallSteps(t, call), WithCall(h, s1, t, call));
    LeadsJoin(h, s, [Begin] + CallSteps(t, call), WithCall(h, s1, t, call), [Write(t, Commit)], WithAppend(s, call));
  }

  lemma XidIsNew(h: Hash, s: State)
    requires IsReachable(h, s)
    ensures s.nextXid !in s.txns
  {
    ReachableInv(h, s);
    hide CertInv, AccountInv, IsReachable;
  }

  /** What a new transaction holds after its only call. */
  function Only(h: Hash, s: State, call: Call): Txn {
    var n, head := |call.request.events|, CommittedHead(s, call.stream);
    var positions := PositionsFrom(s.counter, n);
    Txn({h(call.stream)}, true, Block(call, head, s.counter, s.nextXid, n),
        if call.key == None then map[]
        else map[call.key.value := KeyRecord(call.stream, call.request, head + 1, head + n, positions)],
        OutboxRows(call.request.events, positions, call.request.topics),
        [Outcome(call, head + 1, head + n, positions, false)], Idle)
  }

  lemma OnlyCall(h: Hash, s: State, call: Call)
    ensures WithCall(h, Begun(s), s.nextXid, call) == At(Begun(s), s.nextXid, Only(h, s, call), |call.request.events|)
  {
    hide Block, StreamLog, PositionsFrom, OutboxRows;
    assert View(Begun(s), s.nextXid) == s.committed;
    assert {} + {h(call.stream)} == {h(call.stream)};
    var rows, x := Only(h, s, call).rows, Only(h, s, call);
    assert map[] + rows == rows;
    assert [] + x.outbox == x.outbox && [] + x.outcomes == x.outcomes;
  }

  lemma CommitLeaves(h: Hash, s: State, call: Call)
    requires s.nextXid !in s.txns
    ensures DoCommit(WithCall(h, Begun(s), s.nextXid, call), s.nextXid) == WithAppend(s, call)
  {
    OnlyCall(h, s, call);
    hide Block, CommittedHead, PositionsFrom, OutboxRows, WithCall;
    var y := At(Begun(s), s.nextXid, Only(h, s, call), |call.request.events|);
    assert y.txns - {s.nextXid} == s.txns;
    if call.key.Some? {
      var k, own := call.key.value, Only(h, s, call).keys;
      assert s.keys + own == s.keys[k := own[k]];
    } else {
      assert s.keys + map[] == s.keys;
    }
  }

  lemma CommitLeads(h: Hash, s: State, call: Call)
    requires s.nextXid !in s.txns
    ensures Leads(h, WithCall(h, Begun(s), s.nextXid, call), [Write(s.nextXid, Commit)], WithAppend(s, call))
  {
    CommitLeaves(h, s, call);
    var y := WithCall(h, Begun(s), s.nextXid, call);
    assert s.nextXid in y.txns && y.txns[s.nextXid].phase == Idle;
    hide Leads, WithCall, WithAppend, DoCommit;
    LeadsOne(h, y, Write(s.nextXid, Commit), WithAppend(s, call));
  }
}
