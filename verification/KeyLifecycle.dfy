/** Creating, using, rewrapping and revoking keys from replicas configured with different
    secrets and current versions, and what readers see of the events meanwhile.

    A writer is a transaction of one or more appends: each locks the key rows of its events,
    prepares the rows one by one and inserts them.  An append that cannot lock a key or prepare
    an event throws; the caller may catch that and go on in the same transaction, or roll back.
    A row lock (FOR UPDATE, or the UPDATE of a revocation) excludes other transactions until
    the holder ends. */
module KeyLifecycle {
  import opened Options
  import opened FieldEncryptor
  import opened CryptoKeys
  import opened EventRows

  /** A stored row with the input it was prepared from and the version it was sealed with. */
  datatype Written = Written(input: EventInput, version: nat, row: EventRow)

  /** A transaction: the rows it holds, its own updates of them, the events prepared for the
      append in progress, the events inserted so far, and whether an append has just thrown. */
  datatype Writer = Writer(manager: Option<Replica>, locked: set<string>, rows: KeyRows, prepared: seq<Written>,
                           pending: seq<Written>, refused: bool)

  /** rows and events are the committed tables; minted remembers the entity keys created. */
  datatype State = State(rows: KeyRows, minted: map<string, string>, writers: map<nat, Writer>, events: seq<Written>)

  datatype Step =
    | CreateKey(replica: Replica, keyId: string, entityKey: string)
    | RevokeKey(keyId: string)
    | Begin(w: nat, manager: Option<Replica>)
    | LockKey(w: nat, keyId: string)
    | Prepare(w: nat, event: EventInput, id: string)
    | Insert(w: nat)
    | Catch(w: nat)
    | Commit(w: nat)
    | Rollback(w: nat)

  function Init(): State {
    State(map[], map[], map[], [])
  }

  /** The key rows a statement of the writer sees: committed ones, and its own updates. */
  function View(s: State, w: nat): KeyRows
    requires w in s.writers
  {
    s.rows + s.writers[w].rows
  }

  ghost predicate Unlocked(s: State, keyId: string) {
    forall v :: v in s.writers ==> keyId !in s.writers[v].locked
  }

  predicate NeedsKey(event: EventInput, manager: Option<Replica>) {
    event.encryptedFields != [] && KeyIdGiven(event.cryptoKeyId) && manager.Some?
  }

  ghost predicate Enabled(s: State, a: Step) {
    match a
    case CreateKey(replica, _, _) => replica.Valid()
    case RevokeKey(keyId) => Unlocked(s, keyId)
    case Begin(w, manager) => w !in s.writers && (manager.Some? ==> manager.value.Valid())
    case LockKey(w, keyId) =>
      w in s.writers && !s.writers[w].refused &&
      forall v :: v in s.writers && v != w ==> keyId !in s.writers[v].locked
    case Prepare(w, event, _) =>
      w in s.writers && !s.writers[w].refused && (s.writers[w].manager.Some? ==> s.writers[w].manager.value.Valid()) &&
      (NeedsKey(event, s.writers[w].manager) ==> event.cryptoKeyId.value in s.writers[w].locked)
    case Insert(w) => w in s.writers && !s.writers[w].refused
    case Catch(w) => w in s.writers && s.writers[w].refused
    case Commit(w) => w in s.writers && !s.writers[w].refused && s.writers[w].prepared == []
    case Rollback(w) => w in s.writers
  }

  function Ended(s: State, w: nat): State {
    s.(writers := s.writers - {w})
  }

  function DoCreate(s: State, replica: Replica, keyId: string, entityKey: string): State
    requires replica.Valid()
  {
    s.(rows := Created(s.rows, replica, keyId, entityKey),
       minted := if keyId in s.rows then s.minted else s.minted[keyId := entityKey])
  }

  function Update(s: State, w: nat, x: Writer): State {
    s.(writers := s.writers[w := x])
  }

  /** A missing or revoked key throws. */
  function DoLock(s: State, w: nat, keyId: string): State
    requires w in s.writers
  {
    var x := s.writers[w];
    if keyId !in View(s, w) || View(s, w)[keyId].revoked then Update(s, w, x.(prepared := [], refused := true))
    else Update(s, w, x.(locked := x.locked + {keyId}))
  }

  /** The writer's updates with the row of the event's key taken from a key table. */
  function RowsWith(x: Writer, event: EventInput, table: KeyRows): KeyRows {
    if NeedsKey(event, x.manager) && event.cryptoKeyId.value in table
    then x.rows[event.cryptoKeyId.value := table[event.cryptoKeyId.value]] else x.rows
  }

  /** An event that cannot be prepared throws; a key rewrapped before that stays rewrapped. */
  function DoPrepare(s: State, w: nat, event: EventInput, id: string): State
    requires w in s.writers && (s.writers[w].manager.Some? ==> s.writers[w].manager.value.Valid())
  {
    var x := s.writers[w];
    if !Preparable(event, x.manager, View(s, w)) then
      Update(s, w, x.(rows := RowsWith(x, event, LeftByFailure(event, x.manager, View(s, w))), prepared := [], refused := true))
    else
      var prepared := PreparedOf(event, id, x.manager, View(s, w));
      var version := if x.manager.Some? then x.manager.value.current else 0;
      Update(s, w, x.(rows := RowsWith(x, event, prepared.rows),
                      prepared := x.prepared + [Written(event, version, prepared.row)]))
  }

  function DoCommit(s: State, w: nat): State
    requires w in s.writers
  {
    Ended(s, w).(rows := View(s, w), events := s.events + s.writers[w].pending)
  }

  ghost function Apply(s: State, a: Step): State
    requires Enabled(s, a)
  {
    match a
    case CreateKey(replica, keyId, entityKey) => DoCreate(s, replica, keyId, entityKey)
    case RevokeKey(keyId) => if keyId in s.rows then s.(rows := Revoked(s.rows, keyId)) else s
    case Begin(w, manager) => Update(s, w, Writer(manager, {}, map[], [], [], false))
    case LockKey(w, keyId) => DoLock(s, w, keyId)
    case Prepare(w, event, id) => DoPrepare(s, w, event, id)
    case Insert(w) => Update(s, w, s.writers[w].(pending := s.writers[w].pending + s.writers[w].prepared, prepared := []))
    case Catch(w) => Update(s, w, s.writers[w].(refused := false))
    case Commit(w) => DoCommit(s, w)
    case Rollback(w) => Ended(s, w)
  }

  ghost predicate Runs(s: State, steps: seq<Step>)
    decreases |steps|
  {
    steps == [] || (Enabled(s, steps[0]) && Runs(Apply(s, steps[0]), steps[1..]))
  }

  ghost function After(s: State, steps: seq<Step>): State
    requires Runs(s, steps)
    decreases |steps|
  {
    if steps == [] then s else After(Apply(s, steps[0]), steps[1..])
  }

  ghost predicate IsReachable(s: State) {
    exists steps :: Runs(Init(), steps) && After(Init(), steps) == s
  }

  // ---- The invariant ----

  ghost predicate KeysOk(s: State) {
    && s.minted.Keys == s.rows.Keys
    && forall k :: k in s.rows ==> RowOk(k, s.rows[k], s.minted[k])
  }

  /** The row is the input's: plain, or sealed under the key minted for its key id. */
  ghost predicate EventOk(minted: map<string, string>, e: Written) {
    || (EntriesIn(e.row) == map[] && e.row == PlainRow(e.input, e.row.id))
    || (EntriesIn(e.row) != map[] && KeyIdGiven(e.input.cryptoKeyId) && e.input.cryptoKeyId.value in minted &&
        e.row.cryptoKeyId == e.input.cryptoKeyId &&
        Encryptable(e.input.data, e.input.encryptedFields, e.version) &&
        e.row == SealedRow(e.input, e.row.id, e.input.cryptoKeyId.value, minted[e.input.cryptoKeyId.value], e.version))
  }

  ghost predicate EventsOk(s: State) {
    forall i :: 0 <= i < |s.events| ==> EventOk(s.minted, s.events[i])
  }

  /** A locked row is live, and the writer's update of it continues it. */
  ghost predicate LockedOk(rows: KeyRows, minted: map<string, string>, x: Writer) {
    && (forall k :: k in x.locked ==> k in rows && !rows[k].revoked)
    && (forall k :: k in x.rows ==>
          k in x.locked && k in minted && RowOk(k, x.rows[k], minted[k]) && !x.rows[k].revoked &&
          Continues(rows[k], x.rows[k]))
  }

  /** Events of a writer are as they should be, and their keys are locked. */
  ghost predicate OwnOk(minted: map<string, string>, locked: set<string>, events: seq<Written>) {
    forall i :: 0 <= i < |events| ==>
      EventOk(minted, events[i]) && (events[i].row.cryptoKeyId.Some? ==> events[i].row.cryptoKeyId.value in locked)
  }

  ghost predicate PendingOk(minted: map<string, string>, x: Writer) {
    OwnOk(minted, x.locked, x.pending) && OwnOk(minted, x.locked, x.prepared)
  }

  ghost predicate WritersOk(s: State) {
    && (forall w :: w in s.writers ==> LockedOk(s.rows, s.minted, s.writers[w]) && PendingOk(s.minted, s.writers[w]))
    && (forall v, w :: v in s.writers && w in s.writers && v != w ==> s.writers[v].locked !! s.writers[w].locked)
  }

  ghost predicate Inv(s: State) {
    KeysOk(s) && EventsOk(s) && WritersOk(s)
  }

  lemma MintedGrows(before: map<string, string>, after: map<string, string>, e: Written)
    requires EventOk(before, e) && forall k :: k in before ==> k in after && after[k] == before[k]
    ensures EventOk(after, e)
  {
  }

  lemma CreateKeepsInv(s: State, replica: Replica, keyId: string, entityKey: string)
    requires Inv(s) && replica.Valid()
    ensures Inv(DoCreate(s, replica, keyId, entityKey))
  {
    hide EventOk, RowOk, Continues, LockedOk, PendingOk, Wrap;
    if keyId !in s.rows {
      WrappedRowOk(replica, keyId, entityKey);
      var s' := DoCreate(s, replica, keyId, entityKey);
      forall i | 0 <= i < |s'.events| ensures EventOk(s'.minted, s'.events[i]) {
        MintedGrows(s.minted, s'.minted, s.events[i]);
      }
      forall w | w in s'.writers
        ensures LockedOk(s'.rows, s'.minted, s'.writers[w]) && PendingOk(s'.minted, s'.writers[w])
      {
        WriterAfterCreate(s, s.writers[w], replica, keyId, entityKey);
      }
    }
  }

  lemma WriterAfterCreate(s: State, x: Writer, replica: Replica, keyId: string, entityKey: string)
    requires KeysOk(s) && replica.Valid() && keyId !in s.rows && LockedOk(s.rows, s.minted, x) && PendingOk(s.minted, x)
    ensures var s' := DoCreate(s, replica, keyId, entityKey);
            LockedOk(s'.rows, s'.minted, x) && PendingOk(s'.minted, x)
  {
    hide EventOk, RowOk, Continues;
    var s' := DoCreate(s, replica, keyId, entityKey);
    forall i | 0 <= i < |x.pending| ensures EventOk(s'.minted, x.pending[i]) {
      MintedGrows(s.minted, s'.minted, x.pending[i]);
    }
    forall i | 0 <= i < |x.prepared| ensures EventOk(s'.minted, x.prepared[i]) {
      MintedGrows(s.minted, s'.minted, x.prepared[i]);
    }
  }

  lemma WrappedRowOk(replica: Replica, keyId: string, entityKey: string)
    requires replica.Valid()
    ensures RowOk(keyId, KeyRow(Some(Wrap(replica, keyId, entityKey)), false), entityKey)
  {
  }

  lemma RevokeKeepsInv(s: State, keyId: string)
    requires Inv(s) && Unlocked(s, keyId) && keyId in s.rows
    ensures Inv(s.(rows := Revoked(s.rows, keyId)))
  {
    var s' := s.(rows := Revoked(s.rows, keyId));
    hide EventOk;
    forall w | w in s'.writers ensures LockedOk(s'.rows, s'.minted, s'.writers[w]) && PendingOk(s'.minted, s'.writers[w]) {
      assert LockedOk(s.rows, s.minted, s.writers[w]) && PendingOk(s.minted, s.writers[w]);
    }
  }

  lemma EndKeepsInv(s: State, w: nat)
    requires Inv(s)
    ensures Inv(Ended(s, w))
  {
    hide EventOk, RowOk, Continues;
    var s' := Ended(s, w);
    forall v | v in s'.writers ensures LockedOk(s'.rows, s'.minted, s'.writers[v]) && PendingOk(s'.minted, s'.writers[v]) {
      assert LockedOk(s.rows, s.minted, s.writers[v]) && PendingOk(s.minted, s.writers[v]);
    }
  }

  /** What a writer's view holds at a row it has locked. */
  lemma ViewOfLocked(s: State, w: nat, keyId: string)
    requires KeysOk(s) && w in s.writers && LockedOk(s.rows, s.minted, s.writers[w]) && keyId in s.writers[w].locked
    ensures keyId in View(s, w) && keyId in s.minted && !View(s, w)[keyId].revoked
    ensures RowOk(keyId, View(s, w)[keyId], s.minted[keyId]) && Continues(s.rows[keyId], View(s, w)[keyId])
  {
  }

  lemma ContinuesTransitive(a: KeyRow, b: KeyRow, c: KeyRow)
    requires Continues(a, b) && Continues(b, c)
    ensures Continues(a, c)
  {
  }

  /** The event a writer prepares, and its key row, are as the invariant wants them. */
  lemma PreparedIsOk(s: State, w: nat, event: EventInput, id: string)
    requires KeysOk(s) && Enabled(s, Prepare(w, event, id)) && LockedOk(s.rows, s.minted, s.writers[w])
    requires Preparable(event, s.writers[w].manager, View(s, w))
    ensures var x := s.writers[w];
            var prepared := PreparedOf(event, id, x.manager, View(s, w));
            var version := if x.manager.Some? then x.manager.value.current else 0;
            EventOk(s.minted, Written(event, version, prepared.row)) &&
            (prepared.row.cryptoKeyId.Some? ==> prepared.row.cryptoKeyId.value in x.locked) &&
            (NeedsKey(event, x.manager) ==>
               var k := event.cryptoKeyId.value;
               k in prepared.rows && RowOk(k, prepared.rows[k], s.minted[k]) && !prepared.rows[k].revoked &&
               Continues(s.rows[k], prepared.rows[k]))
  {
    var x := s.writers[w];
    hide Encryptable;
    if event.encryptedFields == [] {
    } else {
      var keyId, replica := event.cryptoKeyId.value, x.manager.value;
      ViewOfLocked(s, w, keyId);
      hide RowOk, Continues, GetStoredKey, LockedOk, KeysOk, Rewrapped;
      RewrappedContinues(replica, View(s, w), keyId, s.minted[keyId]);
      var stored := GetStoredKey(replica, View(s, w), keyId).value.value;
      var prepared := PreparedOf(event, id, x.manager, View(s, w));
      ContinuesTransitive(s.rows[keyId], View(s, w)[keyId], prepared.rows[keyId]);
      SealedIsOk(event, id, keyId, s.minted[keyId], replica.current);
    }
  }

  lemma SealedIsOk(event: EventInput, id: string, keyId: string, key: string, version: int)
    ensures var row := SealedRow(event, id, keyId, key, version);
            row.id == id && (EntriesIn(row) == map[] ==> row == PlainRow(event, id)) &&
            (EntriesIn(row) != map[] ==> row.cryptoKeyId == Some(keyId)) &&
            (row.cryptoKeyId.Some? ==> row.cryptoKeyId == Some(keyId))
  {
    if EntriesOf(event.data, event.encryptedFields, key, version, Context(id, keyId)) == map[] {
      NothingToSeal(event, id, keyId, key, version);
    }
  }

  lemma WriterReplaced(s: State, w: nat, x: Writer)
    requires Inv(s) && w in s.writers && LockedOk(s.rows, s.minted, x) && PendingOk(s.minted, x)
    requires forall v :: v in s.writers && v != w ==> s.writers[v].locked !! x.locked
    ensures Inv(Update(s, w, x))
  {
    hide EventOk, RowOk, Continues, LockedOk, PendingOk;
  }

  lemma LockKeepsInv(s: State, w: nat, keyId: string)
    requires Inv(s) && Enabled(s, LockKey(w, keyId))
    ensures Inv(DoLock(s, w, keyId))
  {
    hide EventOk, RowOk, Continues, EventsOk, KeysOk;
    WriterReplaced(s, w, DoLock(s, w, keyId).writers[w]);
  }

  /** A key row of a locked key may be replaced by one that continues it. */
  lemma RowUpdated(rows: KeyRows, minted: map<string, string>, x: Writer, k: string, row: KeyRow)
    requires LockedOk(rows, minted, x) && k in x.locked && k in rows && k in minted
    requires RowOk(k, row, minted[k]) && !row.revoked && Continues(rows[k], row)
    ensures LockedOk(rows, minted, x.(rows := x.rows[k := row]))
  {
    hide RowOk, Continues;
  }

  lemma OwnSnoc(minted: map<string, string>, locked: set<string>, events: seq<Written>, e: Written)
    requires OwnOk(minted, locked, events) && EventOk(minted, e)
    requires e.row.cryptoKeyId.Some? ==> e.row.cryptoKeyId.value in locked
    ensures OwnOk(minted, locked, events + [e])
  {
    hide EventOk;
  }

  /** What a failed preparation leaves of the key's row continues it. */
  lemma FailureIsOk(s: State, w: nat, event: EventInput, id: string)
    requires KeysOk(s) && Enabled(s, Prepare(w, event, id)) && LockedOk(s.rows, s.minted, s.writers[w])
    requires NeedsKey(event, s.writers[w].manager)
    ensures var k, left := event.cryptoKeyId.value, LeftByFailure(event, s.writers[w].manager, View(s, w));
            k in left && k in s.minted && RowOk(k, left[k], s.minted[k]) && !left[k].revoked && Continues(s.rows[k], left[k])
  {
    var keyId, replica := event.cryptoKeyId.value, s.writers[w].manager.value;
    ViewOfLocked(s, w, keyId);
    if UsableKey(replica, View(s, w), keyId) {
      hide RowOk, Continues, GetStoredKey, LockedOk, KeysOk, Rewrapped;
      RewrappedContinues(replica, View(s, w), keyId, s.minted[keyId]);
      ContinuesTransitive(s.rows[keyId], View(s, w)[keyId], LeftByFailure(event, s.writers[w].manager, View(s, w))[keyId]);
    }
  }

  lemma PrepareKeepsInv(s: State, w: nat, event: EventInput, id: string)
    requires Inv(s) && Enabled(s, Prepare(w, event, id))
    ensures Inv(DoPrepare(s, w, event, id))
  {
    var x := s.writers[w];
    var needs, y := NeedsKey(event, x.manager), DoPrepare(s, w, event, id).writers[w];
    WriterFacts(s, w);
    if Preparable(event, x.manager, View(s, w)) {
      PreparedIsOk(s, w, event, id);
    } else if needs {
      FailureIsOk(s, w, event, id);
    }
    hide EventOk, RowOk, Continues, Preparable, PreparedOf, LeftByFailure, View, KeysOk, NeedsKey;
    if needs && event.cryptoKeyId.value in y.rows {
      assert event.cryptoKeyId.value in x.locked;
      RowUpdated(s.rows, s.minted, x, event.cryptoKeyId.value, y.rows[event.cryptoKeyId.value]);
    }
    hide EventsOk, WritersOk, LockedOk;
    if !y.refused {
      OwnSnoc(s.minted, x.locked, x.prepared, y.prepared[|x.prepared|]);
    }
    WriterReplaced(s, w, y);
  }

  lemma WriterFacts(s: State, w: nat)
    requires Inv(s) && w in s.writers
    ensures LockedOk(s.rows, s.minted, s.writers[w]) && PendingOk(s.minted, s.writers[w])
    ensures forall k :: k in s.writers[w].locked ==> k in s.rows && k in s.minted
    ensures forall v :: v in s.writers && v != w ==> s.writers[v].locked !! s.writers[w].locked
  {
    LockedIsMinted(s, s.writers[w]);
  }

  lemma InsertKeepsInv(s: State, w: nat)
    requires Inv(s) && Enabled(s, Insert(w))
    ensures Inv(Apply(s, Insert(w)))
  {
    var x := s.writers[w];
    hide EventOk, RowOk, Continues;
    WriterFacts(s, w);
    WriterReplaced(s, w, x.(pending := x.pending + x.prepared, prepared := []));
  }

  lemma CatchKeepsInv(s: State, w: nat)
    requires Inv(s) && w in s.writers
    ensures Inv(Update(s, w, s.writers[w].(refused := false)))
  {
    WriterFacts(s, w);
    hide EventOk, RowOk, Continues;
    WriterReplaced(s, w, s.writers[w].(refused := false));
  }

  lemma LockedIsMinted(s: State, x: Writer)
    requires KeysOk(s) && LockedOk(s.rows, s.minted, x)
    ensures forall k :: k in x.locked ==> k in s.rows && k in s.minted
  {
  }

  lemma CommitKeepsInv(s: State, w: nat)
    requires Inv(s) && w in s.writers
    ensures Inv(DoCommit(s, w))
  {
    hide EventOk, RowOk, Continues;
    var s' := DoCommit(s, w);
    var x := s.writers[w];
    assert LockedOk(s.rows, s.minted, x) && PendingOk(s.minted, x);
    forall v | v in s'.writers ensures LockedOk(s'.rows, s'.minted, s'.writers[v]) && PendingOk(s'.minted, s'.writers[v]) {
      assert LockedOk(s.rows, s.minted, s.writers[v]) && PendingOk(s.minted, s.writers[v]);
      assert s.writers[v].locked !! x.locked;
      forall k | k in s.writers[v].locked ensures s'.rows[k] == s.rows[k] {
        assert k !in x.locked && k !in x.rows;
      }
    }
  }

  lemma StepKeepsInv(s: State, a: Step)
    requires Inv(s) && Enabled(s, a)
    ensures Inv(Apply(s, a))
  {
    hide Inv, DoCreate, DoLock, DoPrepare, DoCommit, Ended, Revoked;
    match a
    case CreateKey(replica, keyId, entityKey) => CreateKeepsInv(s, replica, keyId, entityKey);
    case RevokeKey(keyId) =>
      if keyId in s.rows {
        RevokeKeepsInv(s, keyId);
      }
    case Begin(w, manager) => BeginKeepsInv(s, w, manager);
    case LockKey(w, keyId) => LockKeepsInv(s, w, keyId);
    case Prepare(w, event, id) => PrepareKeepsInv(s, w, event, id);
    case Insert(w) => InsertKeepsInv(s, w);
    case Catch(w) => CatchKeepsInv(s, w);
    case Commit(w) => CommitKeepsInv(s, w);
    case Rollback(w) => EndKeepsInv(s, w);
  }

  lemma BeginKeepsInv(s: State, w: nat, manager: Option<Replica>)
    requires Inv(s) && w !in s.writers
    ensures Inv(Update(s, w, Writer(manager, {}, map[], [], [], false)))
  {
    hide EventOk, RowOk, Continues;
    var s' := Update(s, w, Writer(manager, {}, map[], [], [], false));
    forall v | v in s'.writers ensures LockedOk(s'.rows, s'.minted, s'.writers[v]) && PendingOk(s'.minted, s'.writers[v]) {
      assert v != w ==> LockedOk(s.rows, s.minted, s.writers[v]) && PendingOk(s.minted, s.writers[v]);
    }
  }

  lemma {:induction false} RunKeepsInv(s: State, steps: seq<Step>)
    requires Inv(s) && Runs(s, steps)
    ensures Inv(After(s, steps))
    decreases |steps|
  {
    hide Inv, Enabled, Apply;
    if steps != [] {
      StepKeepsInv(s, steps[0]);
      RunKeepsInv(Apply(s, steps[0]), steps[1..]);
    }
  }

  lemma ReachableInv(s: State)
    requires IsReachable(s)
    ensures Inv(s)
  {
    assert Inv(Init());
    hide Inv, Runs, After, Init;
    var steps :| Runs(Init(), steps) && After(Init(), steps) == s;
    RunKeepsInv(Init(), steps);
  }
}
