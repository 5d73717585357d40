/** Invariants of the commit-order protocol: every step keeps them. */
module CommitOrderSafety {
  import opened Options
  import opened Sequences
  import opened EventTable
  import opened OutboxInsert
  import opened CommitOrder

  // ---- What holds of the shared state ----

  /** Rows carry the id of their transaction; a running id is below the counter and has
      committed nothing. */
  ghost predicate XidInv(s: State) {
    && (forall t :: t in s.txns ==> t < s.nextXid)
    && (forall p :: p in s.committed ==> s.committed[p].xid < s.nextXid && s.committed[p].xid !in s.txns)
    && (forall t, p :: t in s.txns && p in s.txns[t].rows ==> s.txns[t].rows[p].xid == t)
  }

  ghost predicate HasCall(p: Phase) {
    p.Locked? || p.Fresh? || p.Inserting? || p.Written?
  }

  /** A stream lock has one holder, and a transaction works only on streams it has locked. */
  ghost predicate LockInv(h: Hash, s: State) {
    && (forall t, u :: t in s.txns && u in s.txns && t != u ==> s.txns[t].locks !! s.txns[u].locks)
    && (forall t, p :: t in s.txns && p in s.txns[t].rows ==> h(s.txns[t].rows[p].stream) in s.txns[t].locks)
    && (forall t :: t in s.txns && HasCall(s.txns[t].phase) ==> h(s.txns[t].phase.call.stream) in s.txns[t].locks)
  }

  /** Positions are handed out once, and only to holders of the fence. */
  ghost predicate PositionInv(s: State) {
    && Within(s.committed, s.counter)
    && (forall t :: t in s.txns ==> Within(s.txns[t].rows, s.counter))
    && (forall t, p :: t in s.txns && p in s.txns[t].rows ==> p !in s.committed && s.txns[t].fence)
    && (forall t, u, p :: t in s.txns && u in s.txns && t != u && p in s.txns[t].rows ==> p !in s.txns[u].rows)
  }

  /** An uncommitted key is not committed and belongs to one transaction. */
  ghost predicate KeyInv(s: State) {
    && (forall t, k :: t in s.txns && k in s.txns[t].keys ==> k !in s.keys)
    && (forall t, u, k :: t in s.txns && u in s.txns && t != u && k in s.txns[t].keys ==> k !in s.txns[u].keys)
  }

  // ---- What holds of an append call and its answers ----

  ghost predicate Extends(t: Table, u: Table) {
    forall p :: p in t ==> p in u && u[p] == t[p]
  }

  /** The positions hold the first events of the batch under consecutive versions. */
  ghost predicate RowsMatch(view: Table, stream: string, events: seq<EventInput>, from: nat, positions: seq<nat>) {
    && |positions| <= |events|
    && Ascending(positions)
    && forall i :: 0 <= i < |positions| ==>
         positions[i] in view && view[positions[i]].stream == stream &&
         view[positions[i]].version == from + i && view[positions[i]].event == events[i]
  }

  /** What the expected version demands of the first version written. */
  ghost predicate Expected(call: Call, from: nat) {
    && from >= 1
    && (call.expected > 0 ==> from == call.expected + 1)
    && (call.expected == -1 ==> from == 1)
  }

  ghost predicate KeyOk(view: Table, r: KeyRecord) {
    && 0 < |r.positions| == |r.request.events| && r.to == r.from + |r.positions| - 1
    && RowsMatch(view, r.stream, r.request.events, r.from, r.positions)
  }

  /** An answer names rows that are there, and the key it was given stores the same answer. */
  ghost predicate OutcomeOk(view: Table, keys: map<string, KeyRecord>, o: Outcome) {
    var r := KeyRecord(o.call.stream, o.call.request, o.from, o.to, o.positions);
    && KeyOk(view, r)
    && (!o.duplicate ==> Expected(o.call, o.from))
    && (o.call.key.Some? ==> o.call.key.value in keys && keys[o.call.key.value] == r)
  }

  /** The outbox rows one answered append owes: events x topics, or nothing for a duplicate. */
  function OwedBy(o: Outcome): seq<OutboxRow<EventInput>> {
    if o.duplicate || |o.positions| != |o.call.request.events| then []
    else OutboxRows(o.call.request.events, o.positions, o.call.request.topics)
  }

  function Owed(os: seq<Outcome>): seq<OutboxRow<EventInput>> {
    FlatMap(OwedBy, os)
  }

  /** No two appends of the list took effect under one key. */
  ghost predicate AtMostOnce(os: seq<Outcome>) {
    forall i, j :: 0 <= i < j < |os| && !os[i].duplicate && !os[j].duplicate && os[i].call.key.Some? ==>
      os[i].call.key != os[j].call.key
  }

  /** The answers given against a view, and the keys that were written for them. */
  ghost predicate Ledger(view: Table, visible: map<string, KeyRecord>, own: map<string, KeyRecord>, os: seq<Outcome>) {
    && (forall k :: k in own ==> KeyOk(view, own[k]))
    && (forall i :: 0 <= i < |os| ==> OutcomeOk(view, visible, os[i]))
    && (forall i :: 0 <= i < |os| && !os[i].duplicate && os[i].call.key.Some? ==> os[i].call.key.value in own)
    && AtMostOnce(os)
  }

  ghost predicate AllNumbered(view: Table, hi: nat) {
    forall stream :: Numbered(view, stream, hi)
  }

  /** Progress of the current call: the rows written so far are the head of the stream. */
  ghost predicate PhaseOk(view: Table, counter: nat, p: Phase) {
    match p
    case Locked(call) => call.request.events != []
    case Fresh(call) => call.request.events != []
    case Inserting(call, from, positions) =>
      && call.request.events != []
      && Expected(call, from)
      && RowsMatch(view, call.stream, call.request.events, from, positions)
      && |StreamLog(view, call.stream, counter)| == from - 1 + |positions|
    case Written(call, from, positions) =>
      && call.request.events != []
      && Expected(call, from)
      && RowsMatch(view, call.stream, call.request.events, from, positions)
      && |positions| == |call.request.events|
    case Idle => true
    case Refused => true
    case Failed => true
  }

  /** Outbox rows written by a transaction: those its answers owe and those of the call in progress. */
  ghost predicate OutboxOk(x: Txn) {
    match x.phase
    case Written(call, from, positions) =>
      |positions| == |call.request.events| &&
      x.outbox == Owed(x.outcomes) + OutboxRows(call.request.events, positions, call.request.topics)
    case Failed => true
    case _ => x.outbox == Owed(x.outcomes)
  }

  /** Everything that concerns one transaction's own record. */
  ghost predicate TxnOk(committed: Table, keys: map<string, KeyRecord>, counter: nat, x: Txn) {
    var view := committed + x.rows;
    && AllNumbered(view, counter)
    && PhaseOk(view, counter, x.phase)
    && Ledger(view, keys + x.keys, x.keys, x.outcomes)
    && OutboxOk(x)
  }

  ghost predicate StoreInv(h: Hash, s: State) {
    && XidInv(s) && LockInv(h, s) && PositionInv(s) && KeyInv(s)
    && AllNumbered(s.committed, s.counter)
    && Ledger(s.committed, s.keys, s.keys, s.outcomes)
    && s.outbox == Owed(s.outcomes)
    && (forall t :: t in s.txns ==> TxnOk(s.committed, s.keys, s.counter, s.txns[t]))
  }

  // ---- Certification ----

  ghost predicate CertOk(s: State, c: nat)
    requires c in s.certs
  {
    var p := s.certs[c];
    && (p != Waiting ==> s.reader == Some(c))
    && ((p.Tried? && p.acquired) || (p.ReadCached? && p.acquired) || p.ReadMax? ==> s.exclusive == Some(c))
    && ((p.ReadCached? || p.ReadMax?) ==> p.last == s.watermark)
    && (p.ReadMax? ==> p.position == MaxPosition(s.committed, s.counter))
    && (p.Ready? ==> p.safe == s.watermark)
  }

  ghost predicate NonDecreasing(ws: seq<nat>) {
    forall i, j :: 0 <= i < j < |ws| ==> ws[i] <= ws[j]
  }

  /** The certified position lies below every position that can still be committed. */
  ghost predicate CertInv(s: State) {
    && (s.exclusive.Some? ==> s.reader == s.exclusive && forall t :: t in s.txns ==> !s.txns[t].fence)
    && (s.reader.Some? ==> s.reader.value in s.certs)
    && s.watermark <= s.counter
    && (s.watermark > 0 ==> s.watermark in s.committed)
    && (forall t, p :: t in s.txns && p in s.txns[t].rows ==> p > s.watermark)
    && (forall c :: c in s.certs ==> CertOk(s, c))
    && NonDecreasing(s.returned)
    && (forall i :: 0 <= i < |s.returned| ==> s.returned[i] <= s.watermark)
  }

  // ---- Where rows come from ----

  /** Position p was written by the i-th answered call. */
  ghost predicate WrittenBy(os: seq<Outcome>, i: int, p: nat) {
    0 <= i < |os| && !os[i].duplicate && p in os[i].positions
  }

  /** Every row belongs to exactly one answered call, or to the call in progress, and
      answered calls name existing rows. */
  ghost predicate Accounted(rows: Table, os: seq<Outcome>, inProgress: seq<nat>) {
    && (forall p :: p in rows ==> p in inProgress || exists i :: WrittenBy(os, i, p))
    && (forall i, p :: WrittenBy(os, i, p) ==> p in rows && p !in inProgress)
    && (forall i, j, p :: WrittenBy(os, i, p) && WrittenBy(os, j, p) ==> i == j)
    && (forall k :: 0 <= k < |inProgress| ==> inProgress[k] in rows)
  }

  function InProgress(p: Phase): seq<nat> {
    if p.Inserting? || p.Written? then p.positions else []
  }

  ghost predicate AccountInv(s: State) {
    && Accounted(s.committed, s.outcomes, [])
    && forall t :: t in s.txns ==>
         s.txns[t].phase == Failed || Accounted(s.txns[t].rows, s.txns[t].outcomes, InProgress(s.txns[t].phase))
  }

  ghost predicate Inv(h: Hash, s: State) {
    StoreInv(h, s) && CertInv(s) && AccountInv(s)
  }

  // ---- Lists of answers ----

  lemma OwedSnoc(os: seq<Outcome>, o: Outcome)
    ensures Owed(os + [o]) == Owed(os) + OwedBy(o)
  {
    FlatMapConcat(OwedBy, os, [o]);
    assert FlatMap(OwedBy, [o]) == OwedBy(o) + FlatMap(OwedBy, []);
  }

  lemma OwedDuplicate(os: seq<Outcome>, o: Outcome)
    requires o.duplicate
    ensures Owed(os + [o]) == Owed(os)
  {
    OwedSnoc(os, o);
  }

  /** A ledger survives more committed rows and more visible keys. */
  lemma LedgerGrows(view: Table, view': Table, visible: map<string, KeyRecord>, visible': map<string, KeyRecord>,
                    own: map<string, KeyRecord>, os: seq<Outcome>)
    requires Ledger(view, visible, own, os)
    requires Extends(view, view')
    requires forall k :: k in visible ==> k in visible' && visible'[k] == visible[k]
    ensures Ledger(view', visible', own, os)
  {
  }

  /** A further answer joins a ledger when it is a duplicate or its key is new to it. */
  lemma LedgerSnoc(view: Table, visible: map<string, KeyRecord>, own: map<string, KeyRecord>,
                   os: seq<Outcome>, o: Outcome)
    requires Ledger(view, visible, own, os) && OutcomeOk(view, visible, o)
    requires !o.duplicate && o.call.key.Some? ==> o.call.key.value in own
    requires !o.duplicate && o.call.key.Some? ==>
               forall i :: 0 <= i < |os| && !os[i].duplicate ==> os[i].call.key != o.call.key
    ensures Ledger(view, visible, own, os + [o])
  {
  }

  /** Two ledgers with disjoint keys join. */
  lemma LedgerJoin(view: Table, visible: map<string, KeyRecord>,
                   own1: map<string, KeyRecord>, os1: seq<Outcome>,
                   own2: map<string, KeyRecord>, os2: seq<Outcome>)
    requires Ledger(view, visible, own1, os1) && Ledger(view, visible, own2, os2)
    requires forall k :: k in own1 ==> k !in own2
    ensures Ledger(view, visible, own1 + own2, os1 + os2)
  {
  }
}
