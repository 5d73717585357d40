/** Every step of the commit-order protocol keeps its invariant. */
module CommitOrderSteps {
  import opened Options
  import opened Sequences
  import opened EventTable
  import opened OutboxInsert
  import opened CommitOrder
  import opened CommitOrderSafety

  // ---- One transaction's own record ----

  lemma LockingOk(h: Hash, committed: Table, keys: map<string, KeyRecord>, counter: nat, x: Txn, call: Call)
    requires TxnOk(committed, keys, counter, x) && x.phase == Idle && call.request.events != []
    ensures TxnOk(committed, keys, counter, Locking(h, x, call))
  {
  }

  /** The stored answer of a matching key answers the call. */
  lemma DuplicateOk(view: Table, visible: map<string, KeyRecord>, call: Call, r: KeyRecord)
    requires KeyOk(view, r) && r.stream == call.stream && r.request == call.request
    requires call.key.Some? && call.key.value in visible && visible[call.key.value] == r
    ensures OutcomeOk(view, visible, Outcome(call, r.from, r.to, r.positions, true))
  {
  }

  lemma CheckingKeyOk(committed: Table, keys: map<string, KeyRecord>, counter: nat, x: Txn)
    requires TxnOk(committed, keys, counter, x) && x.phase.Locked?
    requires forall k :: k in keys ==> KeyOk(committed + x.rows, keys[k])
    ensures TxnOk(committed, keys, counter, CheckingKey(x, keys + x.keys))
  {
    hide AllNumbered, KeyOk, OutcomeOk, AtMostOnce, Owed;
    var call, visible := x.phase.call, keys + x.keys;
    if call.key.Some? && call.key.value in visible {
      var r := visible[call.key.value];
      if r.stream == call.stream && r.request == call.request {
        var o := Outcome(call, r.from, r.to, r.positions, true);
        OwedDuplicate(x.outcomes, o);
        DuplicateOk(committed + x.rows, visible, call, r);
        LedgerSnoc(committed + x.rows, visible, x.keys, x.outcomes, o);
      }
    }
  }

  lemma ValidatingOk(committed: Table, keys: map<string, KeyRecord>, counter: nat, x: Txn)
    requires TxnOk(committed, keys, counter, x) && x.phase.Fresh?
    ensures TxnOk(committed, keys, counter,
                  Validating(x, MaxVersion(committed + x.rows, x.phase.call.stream, counter)))
  {
    MaxVersionIsLength(committed + x.rows, x.phase.call.stream, counter);
  }

  lemma WritingOutboxOk(committed: Table, keys: map<string, KeyRecord>, counter: nat, x: Txn)
    requires TxnOk(committed, keys, counter, x)
    requires x.phase.Inserting? && |x.phase.positions| == |x.phase.call.request.events|
    ensures TxnOk(committed, keys, counter, WritingOutbox(x))
  {
  }

  lemma RecordingOk(committed: Table, keys: map<string, KeyRecord>, counter: nat, x: Txn)
    requires TxnOk(committed, keys, counter, x) && x.phase.Written?
    requires forall k :: k in x.keys ==> k !in keys
    ensures TxnOk(committed, keys, counter, Recording(x, keys + x.keys))
  {
    var p := x.phase;
    var view, visible := committed + x.rows, keys + x.keys;
    OwedSnoc(x.outcomes, Answer(p));
    if p.call.key.None? {
      LedgerSnoc(view, visible, x.keys, x.outcomes, Answer(p));
    } else if p.call.key.value !in visible {
      RecordingNewKey(view, keys, x);
    }
  }

  lemma RecordingNewKey(view: Table, keys: map<string, KeyRecord>, x: Txn)
    requires x.phase.Written? && x.phase.call.key.Some? && x.phase.call.key.value !in keys + x.keys
    requires PhaseOk(view, 0, x.phase) && Ledger(view, keys + x.keys, x.keys, x.outcomes)
    ensures var own := x.keys[x.phase.call.key.value := RecordOf(x.phase)];
            Ledger(view, keys + own, own, x.outcomes + [Answer(x.phase)])
  {
    var k := x.phase.call.key.value;
    var own := x.keys[k := RecordOf(x.phase)];
    LedgerGrows(view, view, keys + x.keys, keys + own, x.keys, x.outcomes);
    assert Ledger(view, keys + own, own, x.outcomes);
    LedgerSnoc(view, keys + own, own, x.outcomes, Answer(x.phase));
  }

  // ---- Quiet steps ----

  /** A quiet step leaves its transaction's rows alone, takes locks in one place only and
      never gives any back. */
  lemma QuietShape(h: Hash, s: State, t: nat, w: WriteStep)
    requires t in s.txns && WriteEnabled(h, s, t, w) && Quiet(w)
    ensures var x, x' := s.txns[t], Quietly(h, s, t, w);
            x'.rows == x.rows && (x.fence ==> x'.fence) && (x'.fence && !x.fence ==> s.exclusive == None) &&
            x'.locks == x.locks + (if w.Lock? then {h(w.call.stream)} else {}) &&
            (HasCall(x'.phase) ==> if w.Lock? then x'.phase.call == w.call
                                   else HasCall(x.phase) && x'.phase.call == x.phase.call)
  {
    hide OutboxRows, MaxVersion, View, VisibleKeys, RecordOf;
  }

  lemma KeyUpdate(s: State, t: nat, x: Txn)
    requires KeyInv(s) && t in s.txns
    requires forall k :: k in x.keys && k !in s.txns[t].keys ==>
               k !in s.keys && forall u :: u in s.txns && u != t ==> k !in s.txns[u].keys
    ensures KeyInv(Update(s, t, x))
  {
  }

  /** Only recording takes a key, and only one that nobody holds. */
  lemma QuietKeys(h: Hash, s: State, t: nat, w: WriteStep)
    requires t in s.txns && WriteEnabled(h, s, t, w) && Quiet(w) && KeyInv(s)
    ensures KeyInv(Update(s, t, Quietly(h, s, t, w)))
  {
    hide KeyInv, Update, OutboxRows, MaxVersion, View, RecordOf, Answer;
    KeyUpdate(s, t, Quietly(h, s, t, w));
  }

  lemma CommittedKeysOk(h: Hash, s: State, t: nat)
    requires StoreInv(h, s) && t in s.txns
    ensures Extends(s.committed, View(s, t))
    ensures forall k :: k in s.keys ==> KeyOk(View(s, t), s.keys[k])
  {
    LedgerGrows(s.committed, View(s, t), s.keys, s.keys, s.keys, s.outcomes);
  }

  /** Taking the fence, throwing before a row is written, catching and failing. */
  lemma PhaseChangeOk(committed: Table, keys: map<string, KeyRecord>, counter: nat, x: Txn)
    requires TxnOk(committed, keys, counter, x)
    ensures TxnOk(committed, keys, counter, x.(fence := true))
    ensures TxnOk(committed, keys, counter, x.(phase := Failed))
    ensures !x.phase.Failed? && !x.phase.Written? ==>
              TxnOk(committed, keys, counter, x.(phase := Refused)) && TxnOk(committed, keys, counter, x.(phase := Idle))
  {
    hide AllNumbered, Ledger, Owed;
  }

  lemma RecordOfTxn(h: Hash, s: State, t: nat)
    requires StoreInv(h, s) && t in s.txns
    ensures TxnOk(s.committed, s.keys, s.counter, s.txns[t])
    ensures forall k :: k in s.txns[t].keys ==> k !in s.keys
  {
  }

  lemma CheckKeyTxnOk(h: Hash, s: State, t: nat)
    requires StoreInv(h, s) && t in s.txns && s.txns[t].phase.Locked?
    ensures TxnOk(s.committed, s.keys, s.counter, CheckingKey(s.txns[t], VisibleKeys(s, t)))
  {
    RecordOfTxn(h, s, t);
    CommittedKeysOk(h, s, t);
    hide StoreInv, TxnOk, CheckingKey, KeyOk;
    CheckingKeyOk(s.committed, s.keys, s.counter, s.txns[t]);
  }

  lemma EnabledPhase(h: Hash, s: State, t: nat, w: WriteStep)
    requires t in s.txns && WriteEnabled(h, s, t, w)
    ensures var p := s.txns[t].phase;
            match w
            case Lock(call) => p == Idle && call.request.events != []
            case CheckKey => p.Locked?
            case Validate => p.Fresh?
            case WriteOutbox => p.Inserting? && |p.positions| == |p.call.request.events|
            case Record => p.Written?
            case Throw => !p.Failed? && !p.Written?
            case Catch => p == Refused
            case _ => true
  {
  }

  lemma QuietTxnOk(h: Hash, s: State, t: nat, w: WriteStep)
    requires StoreInv(h, s) && t in s.txns && WriteEnabled(h, s, t, w) && Quiet(w)
    ensures TxnOk(s.committed, s.keys, s.counter, Quietly(h, s, t, w))
  {
    var x := s.txns[t];
    RecordOfTxn(h, s, t);
    EnabledPhase(h, s, t, w);
    hide StoreInv, TxnOk, WriteEnabled, Locking, CheckingKey, Validating, WritingOutbox, Recording, MaxVersion;
    match w
    case Lock(call) => LockingOk(h, s.committed, s.keys, s.counter, x, call);
    case CheckKey => CheckKeyTxnOk(h, s, t);
    case Validate => ValidatingOk(s.committed, s.keys, s.counter, x);
    case WriteOutbox => WritingOutboxOk(s.committed, s.keys, s.counter, x);
    case Record => RecordingOk(s.committed, s.keys, s.counter, x);
    case _ => PhaseChangeOk(s.committed, s.keys, s.counter, x);
  }

  lemma XidUpdate(s: State, t: nat, x: Txn)
    requires XidInv(s) && t in s.txns && x.rows == s.txns[t].rows
    ensures XidInv(Update(s, t, x))
  {
  }

  lemma LockUpdate(h: Hash, s: State, t: nat, x: Txn)
    requires LockInv(h, s) && t in s.txns
    requires x.rows == s.txns[t].rows && s.txns[t].locks <= x.locks
    requires forall u :: u in s.txns && u != t ==> x.locks !! s.txns[u].locks
    requires HasCall(x.phase) ==> h(x.phase.call.stream) in x.locks
    ensures LockInv(h, Update(s, t, x))
  {
  }

  lemma PositionUpdate(s: State, t: nat, x: Txn)
    requires PositionInv(s) && t in s.txns
    requires x.rows == s.txns[t].rows && (s.txns[t].fence ==> x.fence)
    ensures PositionInv(Update(s, t, x))
  {
  }

  lemma QuietLocks(h: Hash, s: State, t: nat, w: WriteStep)
    requires LockInv(h, s) && t in s.txns && WriteEnabled(h, s, t, w) && Quiet(w)
    ensures LockInv(h, Update(s, t, Quietly(h, s, t, w)))
  {
    QuietShape(h, s, t, w);
    LockUpdate(h, s, t, Quietly(h, s, t, w));
  }

  lemma QuietKeepsStore(h: Hash, s: State, t: nat, w: WriteStep)
    requires StoreInv(h, s) && t in s.txns && WriteEnabled(h, s, t, w) && Quiet(w)
    ensures StoreInv(h, Update(s, t, Quietly(h, s, t, w)))
  {
    hide LockInv, KeyInv, XidInv, PositionInv, TxnOk, Ledger, AllNumbered, Owed;
    var x := Quietly(h, s, t, w);
    QuietShape(h, s, t, w);
    XidUpdate(s, t, x);
    QuietLocks(h, s, t, w);
    PositionUpdate(s, t, x);
    QuietKeys(h, s, t, w);
    QuietTxnOk(h, s, t, w);
  }

  // ---- Inserting a row ----

  /** A fresh position disturbs no other transaction. */
  lemma TxnOkGap(committed: Table, keys: map<string, KeyRecord>, counter: nat, x: Txn)
    requires TxnOk(committed, keys, counter, x)
    requires Within(committed, counter) && Within(x.rows, counter)
    ensures TxnOk(committed, keys, counter + 1, x)
  {
    var view := committed + x.rows;
    var hi := counter + 1;
    forall stream ensures Numbered(view, stream, hi) {
      NumberedGap(view, stream, counter);
    }
    if x.phase.Inserting? {
      NumberedGap(view, x.phase.call.stream, counter);
    }
  }

  /** The inserted row extends its stream by the next version. */
  lemma TxnOkAddRow(committed: Table, keys: map<string, KeyRecord>, counter: nat, x: Txn, row: Row)
    requires TxnOk(committed, keys, counter, x)
    requires Within(committed, counter) && Within(x.rows, counter)
    requires x.phase.Inserting? && |x.phase.positions| < |x.phase.call.request.events|
    requires row.stream == x.phase.call.stream && row.version == NextVersion(x.phase)
    requires row.event == x.phase.call.request.events[|x.phase.positions|]
    ensures var p := x.phase;
            TxnOk(committed, keys, counter + 1,
                  x.(rows := x.rows[counter + 1 := row],
                     phase := Inserting(p.call, p.from, p.positions + [counter + 1])))
  {
    var p := x.phase;
    var view, view' := committed + x.rows, committed + x.rows[counter + 1 := row];
    assert view' == view[counter + 1 := row];
    var hi := counter + 1;
    forall stream ensures Numbered(view', stream, hi) {
      NumberedExtend(view, row, stream, counter);
    }
    NumberedExtend(view, row, p.call.stream, counter);
    LedgerGrows(view, view', keys + x.keys, keys + x.keys, x.keys, x.outcomes);
    RowsMatchSnoc(view, view', p, row, counter);
  }

  lemma RowsMatchSnoc(view: Table, view': Table, p: Phase, row: Row, counter: nat)
    requires p.Inserting? && |p.positions| < |p.call.request.events|
    requires RowsMatch(view, p.call.stream, p.call.request.events, p.from, p.positions)
    requires Within(view, counter) && view' == view[counter + 1 := row]
    requires row.stream == p.call.stream && row.version == NextVersion(p)
    requires row.event == p.call.request.events[|p.positions|]
    ensures RowsMatch(view', p.call.stream, p.call.request.events, p.from, p.positions + [counter + 1])
  {
  }

  /** With the stream lock held, the next version is free: the UNIQUE constraint on
      (stream_id, stream_version) is never violated and never waited for. */
  lemma InsertNeverClashes(h: Hash, s: State, t: nat, u: nat)
    requires StoreInv(h, s) && t in s.txns && u in s.txns && s.txns[t].phase.Inserting?
    ensures var p := s.txns[t].phase;
            !Clashes(View(s, t), p.call.stream, NextVersion(p)) &&
            (u != t ==> !Clashes(s.txns[u].rows, p.call.stream, NextVersion(p)))
  {
    var p := s.txns[t].phase;
    assert TxnOk(s.committed, s.keys, s.counter, s.txns[t]);
    assert Numbered(View(s, t), p.call.stream, s.counter);
    hide KeyInv, XidInv, Ledger, OutboxOk, AllNumbered, Numbered, RowsMatch;
    NextVersionFree(View(s, t), p.call.stream, s.counter);
  }

  /** On a numbered stream the version behind the last one is free. */
  lemma NextVersionFree(view: Table, stream: string, hi: nat)
    requires Numbered(view, stream, hi) && Within(view, hi)
    ensures !Clashes(view, stream, |StreamLog(view, stream, hi)| + 1)
  {
    SelectMembers(view, InStream(stream), 0, hi);
    var log := StreamLog(view, stream, hi);
    forall q | q in view && view[q].stream == stream ensures view[q].version != |log| + 1 {
      assert q in log;
      var i :| 0 <= i < |log| && log[i] == q;
    }
  }

  lemma XidAddRow(s: State, t: nat, row: Row, phase: Phase)
    requires XidInv(s) && t in s.txns && row.xid == t
    ensures XidInv(AddRow(s, t, row, phase))
  {
  }

  lemma LockAddRow(h: Hash, s: State, t: nat, row: Row, phase: Phase)
    requires LockInv(h, s) && t in s.txns && h(row.stream) in s.txns[t].locks
    requires HasCall(phase) && phase.call.stream == row.stream
    ensures LockInv(h, AddRow(s, t, row, phase))
  {
  }

  lemma PositionAddRow(s: State, t: nat, row: Row, phase: Phase)
    requires PositionInv(s) && t in s.txns && s.txns[t].fence
    ensures PositionInv(AddRow(s, t, row, phase))
  {
  }

  lemma TxnsAddRow(h: Hash, s: State, t: nat)
    requires StoreInv(h, s) && t in s.txns && WriteEnabled(h, s, t, InsertRow)
    ensures var p := s.txns[t].phase;
            var s' := AddRow(s, t, NextRow(t, p), Inserting(p.call, p.from, p.positions + [s.counter + 1]));
            (forall u :: u in s'.txns ==> TxnOk(s'.committed, s'.keys, s'.counter, s'.txns[u])) &&
            AllNumbered(s'.committed, s'.counter)
  {
    hide Ledger, PhaseOk, OutboxOk, Numbered, RowsMatch, Clashes, LockInv, XidInv;
    var p := s.txns[t].phase;
    var s' := AddRow(s, t, NextRow(t, p), Inserting(p.call, p.from, p.positions + [s.counter + 1]));
    forall u | u in s'.txns ensures TxnOk(s'.committed, s'.keys, s'.counter, s'.txns[u]) {
      assert TxnOk(s.committed, s.keys, s.counter, s.txns[u]);
      if u == t {
        TxnOkAddRow(s.committed, s.keys, s.counter, s.txns[t], NextRow(t, p));
      } else {
        TxnOkGap(s.committed, s.keys, s.counter, s.txns[u]);
      }
    }
    var hi := s.counter + 1;
    forall stream ensures Numbered(s.committed, stream, hi) {
      NumberedGap(s.committed, stream, s.counter);
    }
  }

  lemma CallLocked(h: Hash, s: State, t: nat)
    requires LockInv(h, s) && t in s.txns && HasCall(s.txns[t].phase)
    ensures h(s.txns[t].phase.call.stream) in s.txns[t].locks
  {
  }

  lemma InsertKeepsStore(h: Hash, s: State, t: nat)
    requires StoreInv(h, s) && t in s.txns && WriteEnabled(h, s, t, InsertRow)
    ensures StoreInv(h, DoInsertRow(s, t))
  {
    hide Ledger, AllNumbered, TxnOk, LockInv, XidInv, PositionInv;
    CallLocked(h, s, t);
    var p := s.txns[t].phase;
    var row, phase := NextRow(t, p), Inserting(p.call, p.from, p.positions + [s.counter + 1]);
    InsertNeverClashes(h, s, t, t);
    XidAddRow(s, t, row, phase);
    LockAddRow(h, s, t, row, phase);
    PositionAddRow(s, t, row, phase);
    TxnsAddRow(h, s, t);
  }

  // ---- Ending a transaction ----

  lemma LeaveKeepsStore(h: Hash, s: State, t: nat)
    requires StoreInv(h, s) && t in s.txns
    ensures StoreInv(h, Leave(s, t))
  {
    var s' := Leave(s, t);
    assert XidInv(s') && PositionInv(s');
    assert LockInv(h, s') && KeyInv(s');
  }

  /** After t commits, u reads the streams t wrote as t left them and the others as before. */
  lemma OneHolder(h: Hash, s: State, t: nat, u: nat, stream: string)
    requires LockInv(h, s) && t in s.txns && u in s.txns && t != u
    ensures h(stream) in s.txns[u].locks ==> forall p :: p in s.txns[t].rows ==> s.txns[t].rows[p].stream != stream
    ensures h(stream) !in s.txns[u].locks ==> forall p :: p in s.txns[u].rows ==> s.txns[u].rows[p].stream != stream
  {
  }

  lemma NumberedAcrossCommit(h: Hash, s: State, t: nat, u: nat, stream: string)
    requires LockInv(h, s) && PositionInv(s) && t in s.txns && u in s.txns && t != u
    requires AllNumbered(View(s, t), s.counter) && AllNumbered(View(s, u), s.counter)
    ensures Numbered(View(s, t) + s.txns[u].rows, stream, s.counter)
    ensures h(stream) in s.txns[u].locks ==>
              StreamLog(View(s, t) + s.txns[u].rows, stream, s.counter) == StreamLog(View(s, u), stream, s.counter)
  {
    hide Numbered, StreamLog;
    var both := View(s, t) + s.txns[u].rows;
    OneHolder(h, s, t, u, stream);
    hide LockInv;
    if h(stream) in s.txns[u].locks {
      StreamLogIgnores(both, View(s, u), stream, s.counter);
      assert Numbered(View(s, u), stream, s.counter);
    } else {
      StreamLogIgnores(both, View(s, t), stream, s.counter);
      assert Numbered(View(s, t), stream, s.counter);
    }
  }

  /** A commit by t disturbs no other running transaction u. */
  lemma TxnOkAcrossCommit(h: Hash, s: State, t: nat, u: nat)
    requires LockInv(h, s) && PositionInv(s) && KeyInv(s)
    requires t in s.txns && u in s.txns && t != u
    requires TxnOk(s.committed, s.keys, s.counter, s.txns[t])
    requires TxnOk(s.committed, s.keys, s.counter, s.txns[u])
    ensures TxnOk(View(s, t), VisibleKeys(s, t), s.counter, s.txns[u])
  {
    var x := s.txns[u];
    var before, after := View(s, u), View(s, t) + x.rows;
    forall stream ensures Numbered(after, stream, s.counter) {
      NumberedAcrossCommit(h, s, t, u, stream);
    }
    if x.phase.Inserting? {
      NumberedAcrossCommit(h, s, t, u, x.phase.call.stream);
    }
    assert Extends(before, after);
    LedgerGrows(before, after, s.keys + x.keys, VisibleKeys(s, t) + x.keys, x.keys, x.outcomes);
  }

  lemma XidCommit(s: State, t: nat)
    requires XidInv(s) && t in s.txns
    ensures XidInv(DoCommit(s, t))
  {
  }

  lemma PositionCommit(s: State, t: nat)
    requires PositionInv(s) && t in s.txns
    ensures PositionInv(DoCommit(s, t))
  {
  }

  lemma LockCommit(h: Hash, s: State, t: nat)
    requires LockInv(h, s) && t in s.txns
    ensures LockInv(h, DoCommit(s, t))
  {
  }

  lemma KeyCommit(s: State, t: nat)
    requires KeyInv(s) && t in s.txns
    ensures KeyInv(DoCommit(s, t))
  {
  }

  /** The answers and outbox rows of the committed transaction join the committed ones. */
  lemma LedgerCommit(h: Hash, s: State, t: nat)
    requires StoreInv(h, s) && t in s.txns && s.txns[t].phase == Idle
    ensures Ledger(View(s, t), VisibleKeys(s, t), VisibleKeys(s, t), s.outcomes + s.txns[t].outcomes)
    ensures s.outbox + s.txns[t].outbox == Owed(s.outcomes + s.txns[t].outcomes)
  {
    var x := s.txns[t];
    var view, visible := View(s, t), VisibleKeys(s, t);
    assert TxnOk(s.committed, s.keys, s.counter, x);
    assert Extends(s.committed, view);
    LedgerGrows(s.committed, view, s.keys, visible, s.keys, s.outcomes);
    LedgerJoin(view, visible, s.keys, s.outcomes, x.keys, x.outcomes);
    FlatMapConcat(OwedBy, s.outcomes, x.outcomes);
  }

  lemma CommitKeepsStore(h: Hash, s: State, t: nat)
    requires StoreInv(h, s) && t in s.txns && s.txns[t].phase == Idle
    ensures StoreInv(h, DoCommit(s, t))
  {
    hide LockInv, Ledger, AllNumbered, XidInv, PositionInv, KeyInv, Owed, PhaseOk, OutboxOk;
    var s' := DoCommit(s, t);
    XidCommit(s, t);
    PositionCommit(s, t);
    KeyCommit(s, t);
    LedgerCommit(h, s, t);
    LockCommit(h, s, t);
    assert AllNumbered(s'.committed, s'.counter);
    hide TxnOk;
    forall u | u in s'.txns ensures TxnOk(s'.committed, s'.keys, s'.counter, s'.txns[u]) {
      TxnOkAcrossCommit(h, s, t, u);
    }
  }

  // ---- Begin ----

  lemma BeginKeepsStore(h: Hash, s: State)
    requires StoreInv(h, s)
    ensures StoreInv(h, Begun(s))
  {
    BeginXid(s);
    BeginLock(h, s);
    BeginPosition(s);
    BeginKey(s);
    NewTxnOk(s.committed, s.keys, s.counter);
    hide LockInv, XidInv, PositionInv, KeyInv, Ledger, AllNumbered, TxnOk;
  }

  lemma BeginXid(s: State)
    requires XidInv(s)
    ensures XidInv(Begun(s))
  {
  }

  lemma BeginLock(h: Hash, s: State)
    requires LockInv(h, s) && XidInv(s)
    ensures LockInv(h, Begun(s))
  {
  }

  lemma BeginPosition(s: State)
    requires PositionInv(s) && XidInv(s)
    ensures PositionInv(Begun(s))
  {
  }

  lemma BeginKey(s: State)
    requires KeyInv(s) && XidInv(s)
    ensures KeyInv(Begun(s))
  {
  }

  lemma NewTxnOk(committed: Table, keys: map<string, KeyRecord>, counter: nat)
    requires AllNumbered(committed, counter)
    ensures TxnOk(committed, keys, counter, NewTxn())
  {
    assert committed + map[] == committed;
  }

  // ---- All write steps ----

  lemma WriteKeepsStore(h: Hash, s: State, t: nat, w: WriteStep)
    requires StoreInv(h, s) && t in s.txns && WriteEnabled(h, s, t, w)
    ensures StoreInv(h, ApplyWrite(h, s, t, w))
  {
    hide StoreInv, Quietly, DoInsertRow, DoCommit, Leave;
    if w.InsertRow? {
      InsertKeepsStore(h, s, t);
    } else if w.Commit? {
      CommitKeepsStore(h, s, t);
    } else if w.Rollback? {
      LeaveKeepsStore(h, s, t);
    } else {
      QuietKeepsStore(h, s, t, w);
    }
  }

  // ---- Rows and the calls that wrote them ----

  lemma AccountedDuplicate(rows: Table, os: seq<Outcome>, o: Outcome, inProgress: seq<nat>)
    requires Accounted(rows, os, inProgress) && o.duplicate
    ensures Accounted(rows, os + [o], inProgress)
  {
    assert forall i, p :: WrittenBy(os + [o], i, p) <==> WrittenBy(os, i, p);
  }

  /** The call in progress becomes an answered call. */
  lemma AccountedAnswer(rows: Table, os: seq<Outcome>, o: Outcome)
    requires Accounted(rows, os, o.positions) && !o.duplicate
    ensures Accounted(rows, os + [o], [])
  {
    assert forall i, p :: WrittenBy(os + [o], i, p) <==> WrittenBy(os, i, p) || (i == |os| && p in o.positions);
    forall p | p in rows ensures exists i :: WrittenBy(os + [o], i, p) {
      if p in o.positions {
        assert WrittenBy(os + [o], |os|, p);
      } else {
        var i :| WrittenBy(os, i, p);
        assert WrittenBy(os + [o], i, p);
      }
    }
  }

  lemma AccountedJoin(rows: Table, os: seq<Outcome>, more: Table, qs: seq<Outcome>)
    requires Accounted(rows, os, []) && Accounted(more, qs, [])
    requires forall p :: p in more ==> p !in rows
    ensures Accounted(rows + more, os + qs, [])
  {
    assert forall i, p :: WrittenBy(os + qs, i, p) <==> WrittenBy(os, i, p) || WrittenBy(qs, i - |os|, p);
    forall p | p in rows + more ensures exists i :: WrittenBy(os + qs, i, p) {
      if p in more {
        var i :| WrittenBy(qs, i, p);
        assert WrittenBy(os + qs, |os| + i, p);
      } else {
        var i :| WrittenBy(os, i, p);
        assert WrittenBy(os + qs, i, p);
      }
    }
  }

  lemma AccountedInsert(rows: Table, os: seq<Outcome>, inProgress: seq<nat>, position: nat, row: Row)
    requires Accounted(rows, os, inProgress) && position !in rows
    ensures Accounted(rows[position := row], os, inProgress + [position])
  {
  }

  lemma QuietAccounted(h: Hash, s: State, t: nat, w: WriteStep)
    requires t in s.txns && WriteEnabled(h, s, t, w) && Quiet(w)
    requires s.txns[t].phase == Failed || Accounted(s.txns[t].rows, s.txns[t].outcomes, InProgress(s.txns[t].phase))
    ensures var x := Quietly(h, s, t, w);
            x.phase == Failed || Accounted(x.rows, x.outcomes, InProgress(x.phase))
  {
    var x := s.txns[t];
    hide Accounted, MaxVersion, VisibleKeys, Clashes, CheckingKey, Recording;
    match w
    case CheckKey => CheckingAccounted(x, VisibleKeys(s, t));
    case Record => RecordingAccounted(x, VisibleKeys(s, t));
    case _ =>
  }

  lemma CheckingAccounted(x: Txn, visible: map<string, KeyRecord>)
    requires x.phase.Locked? && Accounted(x.rows, x.outcomes, [])
    ensures var x' := CheckingKey(x, visible); Accounted(x'.rows, x'.outcomes, InProgress(x'.phase))
  {
    var x' := CheckingKey(x, visible);
    hide Accounted;
    if x'.phase == Idle {
      AccountedDuplicate(x.rows, x.outcomes, x'.outcomes[|x.outcomes|], []);
    }
  }

  lemma RecordingAccounted(x: Txn, visible: map<string, KeyRecord>)
    requires x.phase.Written? && Accounted(x.rows, x.outcomes, x.phase.positions)
    ensures var x' := Recording(x, visible);
            x'.phase == Failed || Accounted(x'.rows, x'.outcomes, InProgress(x'.phase))
  {
    hide Accounted;
    AccountedAnswer(x.rows, x.outcomes, Answer(x.phase));
  }

  lemma InsertKeepsAccount(h: Hash, s: State, t: nat)
    requires StoreInv(h, s) && AccountInv(s) && t in s.txns && WriteEnabled(h, s, t, InsertRow)
    ensures AccountInv(DoInsertRow(s, t))
  {
    var x := s.txns[t];
    InsertNeverClashes(h, s, t, t);
    FreshPosition(h, s, t);
    hide StoreInv, Clashes, WriteEnabled;
    AccountedInsert(x.rows, x.outcomes, x.phase.positions, s.counter + 1, NextRow(t, x.phase));
    hide Accounted;
  }

  lemma FreshPosition(h: Hash, s: State, t: nat)
    requires StoreInv(h, s) && t in s.txns
    ensures s.counter + 1 !in s.txns[t].rows
    ensures forall p :: p in s.txns[t].rows ==> p !in s.committed
  {
  }

  lemma CommitKeepsAccount(h: Hash, s: State, t: nat)
    requires StoreInv(h, s) && AccountInv(s) && t in s.txns && s.txns[t].phase == Idle
    ensures AccountInv(DoCommit(s, t))
  {
    var x := s.txns[t];
    FreshPosition(h, s, t);
    hide StoreInv, Accounted;
    AccountedJoin(s.committed, s.outcomes, x.rows, x.outcomes);
  }

  lemma BeginKeepsAccount(s: State)
    requires AccountInv(s)
    ensures AccountInv(Begun(s))
  {
  }

  lemma WriteKeepsAccount(h: Hash, s: State, t: nat, w: WriteStep)
    requires StoreInv(h, s) && AccountInv(s) && t in s.txns && WriteEnabled(h, s, t, w)
    ensures AccountInv(ApplyWrite(h, s, t, w))
  {
    hide StoreInv, Accounted;
    if w.InsertRow? {
      InsertKeepsAccount(h, s, t);
    } else if w.Commit? {
      CommitKeepsAccount(h, s, t);
    } else if Quiet(w) {
      QuietAccounted(h, s, t, w);
      hide Quietly, WriteEnabled;
    }
  }
}
