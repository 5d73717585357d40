/** EventStore.append as its caller sees it: the call that appends the events, and after it the
    snapshot appends the store makes for it, in a transaction that append opened itself or that
    its caller did with withTransaction. */
module AppendCalls {
  import opened Options
  import opened EventTable
  import opened CommitOrder
  import opened CommitOrderSafety

  datatype Owner = Store | Caller

  /** Where a transaction stands between the calls its caller makes. */
  datatype Progress =
    | Outside                                    // no append is running
    | Appending(start: nat)                      // the caller's events are being appended
    | Maintaining(start: nat, answer: Outcome)   // they are, and the snapshots are being updated
    | Resolved                                   // the store's transaction is to be committed
    | Rejected                                   // the store's transaction is to be rolled back

  datatype Client = Client(owner: Owner, progress: Progress)

  /** An append that threw at its caller: positions in (start, end] were handed out meanwhile; the
      answer is there when its events were written and updating a snapshot failed. */
  datatype Rejection = Rejection(txn: nat, owner: Owner, start: nat, end: nat, answer: Option<Outcome>)

  datatype Calls = Calls(
    store: State,
    clients: map<nat, Client>,       // by running transaction
    ended: set<nat>,                 // committed transactions
    rejected: seq<Rejection>)

  datatype Act =
    | Start(owner: Owner)
    | Open(t: nat, call: Call)       // append takes the stream lock
    | Work(t: nat, w: WriteStep)     // a statement of the appendToStream call that is running
    | Maintain(t: nat, call: Call)   // a snapshot append takes it again
    | Resolve(t: nat)
    | Reject(t: nat)
    | End(t: nat)
    | Drop(t: nat)
    | Certifier(a: Step)

  function InitCalls(): Calls {
    Calls(Init(), map[], {}, [])
  }

  /** What updateSnapshotAfterAppend appends. */
  predicate SnapshotCall(call: Call, stream: string) {
    call.stream == stream && call.expected > 0 && call.key == None &&
    |call.request.events| == 1 && call.request.topics == []
  }

  /** The step of the protocol below that an act takes, if any; a caller that caught an append's
      error goes on. */
  function BaseStep(y: Calls, a: Act): Option<Step> {
    match a
    case Start(_) => Some(Begin)
    case Open(t, call) => Some(Write(t, Lock(call)))
    case Work(t, w) => Some(Write(t, w))
    case Maintain(t, call) => Some(Write(t, Lock(call)))
    case Resolve(_) => None
    case Reject(t) =>
      if t in y.clients && t in y.store.txns && y.clients[t].owner == Caller && y.store.txns[t].phase == Refused
      then Some(Write(t, Catch)) else None
    case End(t) => Some(Write(t, Commit))
    case Drop(t) => Some(Write(t, Rollback))
    case Certifier(a) => Some(a)
  }

  predicate ActAllowed(y: Calls, a: Act) {
    match a
    case Start(_) => true
    case Open(t, _) => t in y.clients && y.clients[t].progress == Outside
    case Work(t, w) =>
      t in y.clients && InsideCall(w) && (y.clients[t].progress.Appending? || y.clients[t].progress.Maintaining? || w.Raise?)
    case Maintain(t, call) =>
      t in y.clients && y.clients[t].progress.Maintaining? && SnapshotCall(call, y.clients[t].progress.answer.call.stream)
    case Resolve(t) =>
      t in y.clients && t in y.store.txns && y.clients[t].progress.Maintaining? && y.store.txns[t].phase == Idle
    case Reject(t) => t in y.clients && t in y.store.txns && MayReject(y.clients[t].progress, y.store.txns[t].phase)
    case End(t) => t in y.clients && (y.clients[t].progress == Outside || y.clients[t].progress == Resolved)
    case Drop(t) => t in y.clients
    case Certifier(a) => a.CertBegin? || a.Certify?
  }

  /** The steps inside one appendToStream call. */
  predicate InsideCall(w: WriteStep) {
    !w.Lock? && !w.Catch? && !w.Commit? && !w.Rollback?
  }

  /** append throws on its input before any statement, when appendToStream does, and when a
      snapshot's handler, its load or its append does. */
  predicate MayReject(progress: Progress, phase: Phase) {
    match progress
    case Outside => true
    case Appending(_) => phase == Refused || phase == Failed
    case Maintaining(_, _) => phase == Idle || phase == Refused || phase == Failed
    case _ => false
  }

  ghost predicate ActEnabled(h: Hash, y: Calls, a: Act) {
    ActAllowed(y, a) && (BaseStep(y, a).Some? ==> Enabled(h, y.store, BaseStep(y, a).value))
  }

  ghost function StoreAfter(h: Hash, y: Calls, a: Act): State
    requires ActEnabled(h, y, a)
  {
    if BaseStep(y, a).Some? then Apply(h, y.store, BaseStep(y, a).value) else y.store
  }

  /** inTransaction commits when the callback resolves and rolls back when it throws. */
  function Settled(owner: Owner, otherwise: Progress): Progress {
    if owner == Store then otherwise else Outside
  }

  /** The events' call has been answered when its transaction is between calls again; a duplicate
      resolves at once. */
  function Progressed(c: Client, x: Txn): Progress {
    if c.progress.Appending? && x.phase == Idle && x.outcomes != [] then
      var answer := x.outcomes[|x.outcomes| - 1];
      if answer.duplicate then Settled(c.owner, Resolved) else Maintaining(c.progress.start, answer)
    else c.progress
  }

  function RejectionOf(t: nat, c: Client, counter: nat): Rejection {
    match c.progress
    case Appending(start) => Rejection(t, c.owner, start, counter, None)
    case Maintaining(start, answer) => Rejection(t, c.owner, start, counter, Some(answer))
    case _ => Rejection(t, c.owner, counter, counter, None)
  }

  ghost function ApplyAct(h: Hash, y: Calls, a: Act): Calls
    requires ActEnabled(h, y, a)
  {
    var s := StoreAfter(h, y, a);
    var y' := y.(store := s);
    match a
    case Start(owner) => y'.(clients := y.clients[y.store.nextXid := Client(owner, Outside)])
    case Open(t, call) => y'.(clients := y.clients[t := y.clients[t].(progress := Appending(y.store.counter))])
    case Work(t, w) =>
      y'.(clients := y.clients[t := y.clients[t].(progress := if t in s.txns then Progressed(y.clients[t], s.txns[t])
                                                              else y.clients[t].progress)])
    case Maintain(_, _) => y'
    case Resolve(t) => y'.(clients := y.clients[t := y.clients[t].(progress := Settled(y.clients[t].owner, Resolved))])
    case Reject(t) =>
      y'.(clients := y.clients[t := y.clients[t].(progress := Settled(y.clients[t].owner, Rejected))],
          rejected := y.rejected + [RejectionOf(t, y.clients[t], y.store.counter)])
    case End(t) => y'.(clients := y.clients - {t}, ended := y.ended + {t})
    case Drop(t) => y'.(clients := y.clients - {t})
    case Certifier(_) => y'
  }

  ghost predicate CallRuns(h: Hash, y: Calls, acts: seq<Act>)
    decreases |acts|
  {
    acts == [] || (ActEnabled(h, y, acts[0]) && CallRuns(h, ApplyAct(h, y, acts[0]), acts[1..]))
  }

  ghost function CallsAfter(h: Hash, y: Calls, acts: seq<Act>): Calls
    requires CallRuns(h, y, acts)
    decreases |acts|
  {
    if acts == [] then y else CallsAfter(h, ApplyAct(h, y, acts[0]), acts[1..])
  }

  ghost predicate CallsReachable(h: Hash, y: Calls) {
    exists acts :: CallRuns(h, InitCalls(), acts) && CallsAfter(h, InitCalls(), acts) == y
  }

  // ---- Invariant ----

  /** The answer is the transaction's, and its rows took positions in (start, end]. */
  ghost predicate AnswerIn(x: Txn, answer: Outcome, start: nat, end: nat) {
    && answer in x.outcomes && !answer.duplicate && answer.positions != []
    && forall p :: p in answer.positions ==> start < p <= end && p in x.rows
  }

  ghost predicate NoRowsIn(rows: Table, start: nat, end: nat) {
    forall p :: p in rows ==> !(start < p <= end)
  }

  ghost predicate ClientOk(x: Txn, c: Client, counter: nat) {
    match c.progress
    case Appending(start) =>
      && start <= counter && x.phase != Idle
      && (forall p :: p in x.rows && p > start ==> x.phase == Failed || p in InProgress(x.phase))
      && (forall p :: p in InProgress(x.phase) ==> p > start)
    case Maintaining(start, answer) => start <= counter && AnswerIn(x, answer, start, counter)
    case _ => true
  }

  ghost predicate RunningOk(x: Txn, c: Client, r: Rejection) {
    && r.owner == c.owner && (r.owner == Store ==> c.progress == Rejected)
    && match r.answer
       case None => x.phase == Failed || NoRowsIn(x.rows, r.start, r.end)
       case Some(answer) => AnswerIn(x, answer, r.start, r.end)
  }

  /** The append left a row. */
  ghost predicate Leaves(committed: Table, r: Rejection) {
    exists p :: p in committed && committed[p].xid == r.txn && r.start < p <= r.end
  }

  ghost predicate EndedOk(s: State, r: Rejection) {
    && r.owner == Caller
    && match r.answer
       case None => !Leaves(s.committed, r)
       case Some(answer) =>
         && answer in s.outcomes && answer.positions != []
         && forall p :: p in answer.positions ==>
              p in s.committed && s.committed[p].xid == r.txn && r.start < p <= r.end
  }

  ghost predicate RejectionOk(y: Calls, r: Rejection) {
    && r.txn < y.store.nextXid && r.start <= r.end <= y.store.counter
    && (r.txn in y.store.txns ==> r.txn in y.clients && RunningOk(y.store.txns[r.txn], y.clients[r.txn], r))
    && (r.txn in y.ended ==> EndedOk(y.store, r))
  }

  ghost predicate CallInv(y: Calls) {
    && y.clients.Keys == y.store.txns.Keys
    && (forall t :: t in y.ended ==> t < y.store.nextXid && t !in y.store.txns)
    && (forall p :: p in y.store.committed ==> y.store.committed[p].xid in y.ended)
    && (forall t :: t in y.store.txns ==> ClientOk(y.store.txns[t], y.clients[t], y.store.counter))
    && (forall i :: 0 <= i < |y.rejected| ==> RejectionOk(y, y.rejected[i]))
  }
}
