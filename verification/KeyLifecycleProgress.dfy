/** Keys can be created, used and revoked, and what each of that leads to. */
module KeyLifecycleProgress {
  import opened Options
  import opened JsonTree
  import opened FieldEncryptor
  import opened FieldDecryption
  import opened CryptoKeys
  import opened EventRows
  import opened KeyLifecycle
  import opened KeyLifecycleTheorems

  // ---- Runs by their ends ----

  /** The steps are possible from s and end in s'. */
  ghost predicate Leads(s: State, steps: seq<Step>, s': State) {
    Runs(s, steps) && After(s, steps) == s'
  }

  lemma {:induction false} LeadsJoin(s: State, a: seq<Step>, s1: State, b: seq<Step>, s2: State)
    requires Leads(s, a, s1) && Leads(s1, b, s2)
    ensures Leads(s, a + b, s2)
    decreases |a|
  {
    hide Enabled, Apply;
    if a == [] {
      assert a + b == b;
    } else {
      LeadsJoin(Apply(s, a[0]), a[1..], s1, b, s2);
      assert (a + b)[1..] == a[1..] + b;
    }
  }

  lemma LeadsOne(s: State, a: Step, s': State)
    requires Enabled(s, a) && Apply(s, a) == s'
    ensures Leads(s, [a], s')
  {
    hide Enabled, Apply;
    assert Runs(s', []) && After(s', []) == s';
    var one := [a];
    assert one[0] == a && one[1..] == [];
  }

  lemma LaterReachable(s: State, steps: seq<Step>, s': State)
    requires IsReachable(s) && Leads(s, steps, s')
    ensures IsReachable(s')
  {
    hide Runs, After, Init;
    var first :| Runs(Init(), first) && After(Init(), first) == s;
    assert Leads(Init(), first, s);
    LeadsJoin(Init(), first, s, steps, s');
  }

  // ---- Writing an event ----

  /** The key is live and unlocked, and the replica holds the secret of its envelope. */
  ghost predicate KeyAtHand(s: State, manager: Option<Replica>, keyId: Option<string>) {
    manager.Some? && KeyIdGiven(keyId) && keyId.value in s.rows && !s.rows[keyId.value].revoked &&
    s.rows[keyId.value].encryptedKey.Some? && Holds(manager.value, s.rows[keyId.value].encryptedKey.value) &&
    Unlocked(s, keyId.value)
  }

  /** The event can be written: it has nothing to encrypt, or its key is at hand and its data can
      be encrypted. */
  ghost predicate Writable(s: State, manager: Option<Replica>, event: EventInput) {
    && (manager.Some? ==> manager.value.Valid())
    && (event.encryptedFields == [] ||
        (KeyAtHand(s, manager, event.cryptoKeyId) && Encryptable(event.data, event.encryptedFields, manager.value.current)))
  }

  /** One transaction with one append of one event. */
  function WriteSteps(w: nat, manager: Option<Replica>, event: EventInput, id: string): seq<Step> {
    [Begin(w, manager)] +
    (if event.encryptedFields != [] && event.cryptoKeyId.Some? then [LockKey(w, event.cryptoKeyId.value)] else []) +
    [Prepare(w, event, id), Insert(w), Commit(w)]
  }

  /** The event is stored under its id, no other key's row has changed, and its own is sealed under
      no older version than the writer's. */
  ghost predicate Stores(s: State, manager: Option<Replica>, event: EventInput, id: string, s': State) {
    && s'.writers == s.writers && s'.minted == s.minted && s'.rows.Keys == s.rows.Keys
    && |s'.events| == |s.events| + 1 && s'.events[..|s.events|] == s.events
    && s'.events[|s.events|].input == event && s'.events[|s.events|].row.id == id
    && (forall k :: k in s.rows && (event.encryptedFields == [] || Some(k) != event.cryptoKeyId) ==> s'.rows[k] == s.rows[k])
    && (event.encryptedFields != [] && event.cryptoKeyId.Some? && event.cryptoKeyId.value in s.rows && manager.Some? ==>
          var before, after := s.rows[event.cryptoKeyId.value], s'.rows[event.cryptoKeyId.value];
          !after.revoked && before.encryptedKey.Some? && after.encryptedKey.Some? && Holds(manager.value, after.encryptedKey.value) &&
          after.encryptedKey.value.box.entityKey == before.encryptedKey.value.box.entityKey &&
          after.encryptedKey.value.version == Max(before.encryptedKey.value.version, manager.value.current))
  }

  /** The writer with its key locked, if it needs one. */
  function Opened(s: State, w: nat, manager: Option<Replica>, event: EventInput): State {
    Update(s, w, Writer(manager, if event.encryptedFields != [] && event.cryptoKeyId.Some? then {event.cryptoKeyId.value} else {},
                        map[], [], [], false))
  }

  lemma OpenLeads(s: State, w: nat, manager: Option<Replica>, event: EventInput, id: string)
    requires w !in s.writers && (manager.Some? ==> manager.value.Valid())
    requires event.encryptedFields == [] || KeyAtHand(s, manager, event.cryptoKeyId)
    ensures var steps := WriteSteps(w, manager, event, id);
            |steps| >= 3 && Leads(s, steps[..|steps| - 3], Opened(s, w, manager, event))
  {
    var s1 := Update(s, w, Writer(manager, {}, map[], [], [], false));
    LeadsOne(s, Begin(w, manager), s1);
    var steps := WriteSteps(w, manager, event, id);
    if event.encryptedFields != [] && event.cryptoKeyId.Some? {
      var lock := LockKey(w, event.cryptoKeyId.value);
      assert View(s1, w) == s.rows;
      assert Apply(s1, lock) == Opened(s, w, manager, event) by {
        assert s1.writers[w := Opened(s, w, manager, event).writers[w]] == Opened(s, w, manager, event).writers;
        assert {} + {event.cryptoKeyId.value} == {event.cryptoKeyId.value};
      }
      LeadsOne(s1, lock, Opened(s, w, manager, event));
      hide Leads;
      LeadsJoin(s, [Begin(w, manager)], s1, [lock], Opened(s, w, manager, event));
      assert steps[..|steps| - 3] == [Begin(w, manager)] + [lock];
    } else {
      assert steps[..|steps| - 3] == [Begin(w, manager)];
    }
  }

  /** What preparing leaves of the key's row. */
  lemma PreparedFacts(s: State, manager: Option<Replica>, event: EventInput, id: string)
    requires KeysOk(s) && Writable(s, manager, event)
    ensures Preparable(event, manager, s.rows)
    ensures var prepared := PreparedOf(event, id, manager, s.rows);
            prepared.row.id == id &&
            (event.encryptedFields != [] ==>
               var keyId := event.cryptoKeyId.value;
               keyId in prepared.rows &&
               var before, after := s.rows[keyId], prepared.rows[keyId];
               !after.revoked && after.encryptedKey.Some? && Holds(manager.value, after.encryptedKey.value) &&
               after.encryptedKey.value.box.entityKey == before.encryptedKey.value.box.entityKey &&
               after.encryptedKey.value.version == Max(before.encryptedKey.value.version, manager.value.current))
  {
    hide Encryptable, EntriesOf;
    if event.encryptedFields != [] {
      var keyId, replica := event.cryptoKeyId.value, manager.value;
      assert RowOk(keyId, s.rows[keyId], s.minted[keyId]);
      StoredKeyOfRow(replica, s.rows, keyId, s.minted[keyId]);
      RewrappedContinues(replica, s.rows, keyId, s.minted[keyId]);
      hide GetStoredKey;
    }
  }

  /** The store after the write. */
  function WithEvent(s: State, manager: Option<Replica>, event: EventInput, id: string): State
    requires Preparable(event, manager, s.rows) && (manager.Some? ==> manager.value.Valid())
  {
    var prepared, version := PreparedOf(event, id, manager, s.rows), if manager.Some? then manager.value.current else 0;
    var own := RowsWith(Writer(manager, {}, map[], [], [], false), event, prepared.rows);
    s.(rows := s.rows + own, events := s.events + [Written(event, version, prepared.row)])
  }

  /** The writer with the event prepared. */
  function Holder(s: State, w: nat, manager: Option<Replica>, event: EventInput, id: string): Writer
    requires Preparable(event, manager, s.rows) && (manager.Some? ==> manager.value.Valid())
  {
    var prepared, version := PreparedOf(event, id, manager, s.rows), if manager.Some? then manager.value.current else 0;
    var x := Opened(s, w, manager, event).writers[w];
    x.(rows := RowsWith(x, event, prepared.rows), prepared := [Written(event, version, prepared.row)])
  }

  lemma PrepareLeads(s: State, w: nat, manager: Option<Replica>, event: EventInput, id: string)
    requires w !in s.writers && Writable(s, manager, event) && Preparable(event, manager, s.rows)
    ensures Leads(Opened(s, w, manager, event), [Prepare(w, event, id)], Update(s, w, Holder(s, w, manager, event, id)))
  {
    hide Preparable, PreparedOf, Leads, RowsWith;
    var s1, x' := Opened(s, w, manager, event), Holder(s, w, manager, event, id);
    assert View(s1, w) == s.rows && [] + x'.prepared == x'.prepared;
    assert s1.writers[w := x'] == Update(s, w, x').writers;
    LeadsOne(s1, Prepare(w, event, id), Update(s, w, x'));
  }

  lemma InsertLeads(s: State, w: nat, x: Writer)
    requires w !in s.writers && !x.refused && x.pending == []
    ensures Leads(Update(s, w, x), [Insert(w), Commit(w)], s.(rows := s.rows + x.rows, events := s.events + x.prepared))
  {
    var s2, x' := Update(s, w, x), x.(pending := x.prepared, prepared := []);
    var s3, s4 := Update(s, w, x'), s.(rows := s.rows + x.rows, events := s.events + x.prepared);
    assert [] + x.prepared == x.prepared && s2.writers[w := x'] == s3.writers;
    LeadsOne(s2, Insert(w), s3);
    assert s3.writers - {w} == s.writers;
    LeadsOne(s3, Commit(w), s4);
    hide Leads;
    LeadsJoin(s2, [Insert(w)], s3, [Commit(w)], s4);
    assert [Insert(w)] + [Commit(w)] == [Insert(w), Commit(w)];
  }

  lemma WriteLeads(s: State, w: nat, manager: Option<Replica>, event: EventInput, id: string)
    requires w !in s.writers && Writable(s, manager, event) && Preparable(event, manager, s.rows)
    ensures Leads(Opened(s, w, manager, event), [Prepare(w, event, id), Insert(w), Commit(w)], WithEvent(s, manager, event, id))
  {
    PrepareLeads(s, w, manager, event, id);
    InsertLeads(s, w, Holder(s, w, manager, event, id));
    hide Preparable, PreparedOf, Leads;
    LeadsJoin(Opened(s, w, manager, event), [Prepare(w, event, id)], Update(s, w, Holder(s, w, manager, event, id)),
              [Insert(w), Commit(w)], WithEvent(s, manager, event, id));
    assert [Prepare(w, event, id)] + [Insert(w), Commit(w)] == [Prepare(w, event, id), Insert(w), Commit(w)];
  }

  /** An event that can be written is: from every reachable state its transaction runs and stores
      it, and rewraps its key's row exactly when that is older than the writer's version. */
  lemma EventIsStored(s: State, w: nat, manager: Option<Replica>, event: EventInput, id: string)
    requires IsReachable(s) && w !in s.writers && Writable(s, manager, event)
    ensures Runs(s, WriteSteps(w, manager, event, id))
    ensures Stores(s, manager, event, id, After(s, WriteSteps(w, manager, event, id)))
    ensures IsReachable(After(s, WriteSteps(w, manager, event, id)))
  {
    ReachableInv(s);
    PreparedFacts(s, manager, event, id);
    OpenLeads(s, w, manager, event, id);
    WriteLeads(s, w, manager, event, id);
    StoresWritten(s, manager, event, id);
    hide IsReachable, Inv, Writable, Preparable, WithEvent, Opened, Stores, Leads;
    var steps := WriteSteps(w, manager, event, id);
    LeadsJoin(s, steps[..|steps| - 3], Opened(s, w, manager, event), [Prepare(w, event, id), Insert(w), Commit(w)],
              WithEvent(s, manager, event, id));
    assert steps[..|steps| - 3] + [Prepare(w, event, id), Insert(w), Commit(w)] == steps;
    LaterReachable(s, steps, WithEvent(s, manager, event, id));
    LeadsMeans(s, steps, WithEvent(s, manager, event, id));
  }

  lemma LeadsMeans(s: State, steps: seq<Step>, s': State)
    requires Leads(s, steps, s')
    ensures Runs(s, steps) && After(s, steps) == s'
  {
  }

  lemma StoresWritten(s: State, manager: Option<Replica>, event: EventInput, id: string)
    requires KeysOk(s) && Writable(s, manager, event) && Preparable(event, manager, s.rows)
    ensures Stores(s, manager, event, id, WithEvent(s, manager, event, id))
  {
    PreparedFacts(s, manager, event, id);
    hide Preparable, PreparedOf, KeysOk, Unlocked, Encryptable, Holds;
    RowsAfter(s, manager, event, id);
    hide WithEvent;
  }

  lemma RowsAfter(s: State, manager: Option<Replica>, event: EventInput, id: string)
    requires Writable(s, manager, event) && Preparable(event, manager, s.rows)
    ensures var s', prepared := WithEvent(s, manager, event, id), PreparedOf(event, id, manager, s.rows);
            s'.writers == s.writers && s'.minted == s.minted &&
            |s'.events| == |s.events| + 1 && s'.events[..|s.events|] == s.events &&
            s'.events[|s.events|].input == event && s'.events[|s.events|].row == prepared.row &&
            s'.rows == if event.encryptedFields != [] && event.cryptoKeyId.value in prepared.rows
                       then s.rows[event.cryptoKeyId.value := prepared.rows[event.cryptoKeyId.value]] else s.rows
  {
    hide Preparable, PreparedOf, Unlocked, Encryptable, Holds;
    assert s.rows + map[] == s.rows;
  }

  /** A refused event: its key is at hand, but its data cannot be encrypted.  A caller that catches
      that and commits stores no event, and the key stays rewrapped. */
  lemma RefusedEventKeepsRewrap(s: State, w: nat, manager: Replica, event: EventInput, id: string)
    returns (steps: seq<Step>, s': State)
    requires IsReachable(s) && w !in s.writers && manager.Valid() && KeyAtHand(s, Some(manager), event.cryptoKeyId)
    requires event.encryptedFields != [] && !Encryptable(event.data, event.encryptedFields, manager.current)
    ensures Leads(s, steps, s') && s'.events == s.events && s'.writers == s.writers && s'.rows.Keys == s.rows.Keys
    ensures forall k :: k in s.rows && Some(k) != event.cryptoKeyId ==> s'.rows[k] == s.rows[k]
    ensures var before, after := s.rows[event.cryptoKeyId.value].encryptedKey, s'.rows[event.cryptoKeyId.value].encryptedKey;
            after.Some? && after.value.box.entityKey == before.value.box.entityKey &&
            after.value.version == Max(before.value.version, manager.current)
  {
    var keyId, holder := event.cryptoKeyId.value, Opened(s, w, Some(manager), event);
    ReachableInv(s);
    assert RowOk(keyId, s.rows[keyId], s.minted[keyId]);
    StoredKeyOfRow(manager, s.rows, keyId, s.minted[keyId]);
    RewrappedContinues(manager, s.rows, keyId, s.minted[keyId]);
    OpenLeads(s, w, Some(manager), event, id);
    hide IsReachable, Inv, Encryptable, GetStoredKey, RowOk, Rewrapped, KeyAtHand;
    var rows := Rewrapped(s.rows, manager, keyId, GetStoredKey(manager, s.rows, keyId).value.value);
    s' := s.(rows := s.rows[keyId := rows[keyId]]);
    var begun := WriteSteps(w, Some(manager), event, id);
    RefuseLeads(s, w, manager, event, id, rows);
    hide Leads, WriteSteps, Opened;
    steps := begun[..|begun| - 3] + [Prepare(w, event, id), Catch(w), Commit(w)];
    LeadsJoin(s, begun[..|begun| - 3], holder, [Prepare(w, event, id), Catch(w), Commit(w)], s');
  }

  /** The failed preparation, with the rewrap it leaves. */
  lemma FailLeads(s: State, w: nat, manager: Replica, event: EventInput, id: string, row: KeyRow)
    requires w !in s.writers && manager.Valid() && event.encryptedFields != [] && KeyIdGiven(event.cryptoKeyId)
    requires UsableKey(manager, s.rows, event.cryptoKeyId.value)
    requires var keyId := event.cryptoKeyId.value;
             var rows := Rewrapped(s.rows, manager, keyId, GetStoredKey(manager, s.rows, keyId).value.value);
             keyId in rows && row == rows[keyId]
    requires !Encryptable(event.data, event.encryptedFields, manager.current)
    ensures var s1 := Opened(s, w, Some(manager), event);
            Leads(s1, [Prepare(w, event, id)],
                  Update(s, w, s1.writers[w].(rows := map[event.cryptoKeyId.value := row], refused := true)))
  {
    hide Encryptable, GetStoredKey, Rewrapped, Leads;
    var s1 := Opened(s, w, Some(manager), event);
    var x := s1.writers[w];
    assert View(s1, w) == s.rows;
    var s2 := Update(s, w, x.(rows := map[event.cryptoKeyId.value := row], refused := true));
    assert s1.writers[w := s2.writers[w]] == s2.writers;
    LeadsOne(s1, Prepare(w, event, id), s2);
  }

  lemma CatchLeads(s: State, w: nat, x: Writer)
    requires w !in s.writers && x.refused && x.pending == [] && x.prepared == []
    ensures Leads(Update(s, w, x), [Catch(w), Commit(w)], s.(rows := s.rows + x.rows))
  {
    var s2, s3, s4 := Update(s, w, x), Update(s, w, x.(refused := false)), s.(rows := s.rows + x.rows);
    assert s2.writers[w := s3.writers[w]] == s3.writers;
    LeadsOne(s2, Catch(w), s3);
    assert s3.writers - {w} == s.writers && s.events + [] == s.events;
    LeadsOne(s3, Commit(w), s4);
    hide Leads;
    LeadsJoin(s2, [Catch(w)], s3, [Commit(w)], s4);
    assert [Catch(w)] + [Commit(w)] == [Catch(w), Commit(w)];
  }

  lemma RefuseLeads(s: State, w: nat, manager: Replica, event: EventInput, id: string, rows: KeyRows)
    requires w !in s.writers && manager.Valid() && event.encryptedFields != [] && KeyIdGiven(event.cryptoKeyId)
    requires UsableKey(manager, s.rows, event.cryptoKeyId.value) && event.cryptoKeyId.value in rows
    requires rows == Rewrapped(s.rows, manager, event.cryptoKeyId.value,
                               GetStoredKey(manager, s.rows, event.cryptoKeyId.value).value.value)
    requires !Encryptable(event.data, event.encryptedFields, manager.current)
    ensures var keyId := event.cryptoKeyId.value;
            Leads(Opened(s, w, Some(manager), event), [Prepare(w, event, id), Catch(w), Commit(w)],
                  s.(rows := s.rows[keyId := rows[keyId]]))
  {
    hide Encryptable, GetStoredKey, Rewrapped, Leads;
    var keyId, s1 := event.cryptoKeyId.value, Opened(s, w, Some(manager), event);
    var x := s1.writers[w].(rows := map[keyId := rows[keyId]], refused := true);
    FailLeads(s, w, manager, event, id, rows[keyId]);
    CatchLeads(s, w, x);
    assert s.rows + x.rows == s.rows[keyId := rows[keyId]];
    LeadsJoin(s1, [Prepare(w, event, id)], Update(s, w, x), [Catch(w), Commit(w)], s.(rows := s.rows + x.rows));
    assert [Prepare(w, event, id)] + [Catch(w), Commit(w)] == [Prepare(w, event, id), Catch(w), Commit(w)];
  }

  // ---- The life of a key ----

  /** Created and used: a key id that is new has, once created, a key its creator can write under. */
  lemma CreatedKeyIsUsable(s: State, replica: Replica, keyId: string, entityKey: string, event: EventInput)
    requires IsReachable(s) && replica.Valid() && keyId !in s.rows && keyId != "" && event.cryptoKeyId == Some(keyId)
    requires Encryptable(event.data, event.encryptedFields, replica.current)
    ensures Enabled(s, CreateKey(replica, keyId, entityKey))
    ensures Writable(Apply(s, CreateKey(replica, keyId, entityKey)), Some(replica), event)
    ensures IsReachable(Apply(s, CreateKey(replica, keyId, entityKey)))
  {
    var s' := Apply(s, CreateKey(replica, keyId, entityKey));
    ReachableInv(s);
    assert forall w :: w in s.writers ==> LockedOk(s.rows, s.minted, s.writers[w]);
    LeadsOne(s, CreateKey(replica, keyId, entityKey), s');
    LaterReachable(s, [CreateKey(replica, keyId, entityKey)], s');
    hide Encryptable;
  }

  /** Written and read: whoever wrote an event reads it back as its upcast original. */
  lemma WrittenIsRead(s: State, w: nat, manager: Replica, event: EventInput, id: string, s': State, env: Runtime,
                      order: seq<string>)
    requires IsReachable(s) && w !in s.writers && Writable(s, Some(manager), event)
    requires Leads(s, WriteSteps(w, Some(manager), event, id), s')
    requires |s'.events| > |s.events| && Enumerates(order, EntriesIn(s'.events[|s.events|].row).Keys)
    ensures var key := if event.cryptoKeyId.Some? then GetKey(manager, s'.rows, event.cryptoKeyId.value) else Error("");
            ShowsUpcast(Replay(s'.events[|s.events|].row, Some(manager), key, env, order), env, event.eventType,
                        event.schemaVersion, event.data)
  {
    EventIsStored(s, w, Some(manager), event, id);
    LeadsMeans(s, WriteSteps(w, Some(manager), event, id), s');
    StoredEventsRead(s', |s.events|, manager, env, order);
    EncryptedHasFields(s', |s.events|);
    hide IsReachable, Runs, After, GetKey, Replay, ShowsUpcast, WriteSteps, IsRedactionOf;
  }

  /** A stored row with encrypted fields comes from an event that names some. */
  lemma EncryptedHasFields(s: State, i: nat)
    requires IsReachable(s) && i < |s.events|
    ensures EntriesIn(s.events[i].row) != map[] ==> s.events[i].input.encryptedFields != []
  {
    EventInState(s, i);
    hide IsReachable;
    var e := s.events[i];
    if EntriesIn(e.row) != map[] && e.input.encryptedFields == [] {
      NoFieldsNoEntries(e.input.data, s.minted[e.input.cryptoKeyId.value], e.version, Context(e.row.id, e.input.cryptoKeyId.value));
    }
  }

  lemma NoFieldsNoEntries(data: Json, key: string, version: int, context: Context)
    ensures EntriesOf(data, [], key, version, context) == map[]
  {
  }

  /** Revoked: the revocation of a key nobody has locked takes effect at once.  No replica can lock
      it or write under it, and every event stored under it reads as its redaction. */
  lemma RevocationTakesEffect(s: State, keyId: string, i: nat, replica: Replica, env: Runtime, order: seq<string>)
    requires IsReachable(s) && keyId in s.rows && Unlocked(s, keyId)
    ensures Enabled(s, RevokeKey(keyId))
    ensures var s' := Apply(s, RevokeKey(keyId));
            IsReachable(s') && s'.events == s.events && keyId in s'.rows && s'.rows[keyId].revoked &&
            (forall k :: k in s.rows && k != keyId ==> k in s'.rows && s'.rows[k] == s.rows[k]) &&
            (forall w :: w in s'.writers && Enabled(s', LockKey(w, keyId)) ==> Apply(s', LockKey(w, keyId)).writers[w].refused) &&
            (i < |s.events| && EntriesIn(s.events[i].row) != map[] && s.events[i].input.cryptoKeyId == Some(keyId) &&
             Enumerates(order, EntriesIn(s.events[i].row).Keys) ==>
               IsRedactionOf(Replay(s.events[i].row, Some(replica), GetKey(replica, s'.rows, keyId), env, order), s.events[i], order))
  {
    var s' := Apply(s, RevokeKey(keyId));
    LeadsOne(s, RevokeKey(keyId), s');
    LaterReachable(s, [RevokeKey(keyId)], s');
    LockRefused(s', keyId);
    hide IsReachable, GetKey, IsRedactionOf, DoLock;
    if i < |s.events| && EntriesIn(s.events[i].row) != map[] && s.events[i].input.cryptoKeyId == Some(keyId) &&
       Enumerates(order, EntriesIn(s.events[i].row).Keys)
    {
      StoredEventsRead(s', i, replica, env, order);
    }
  }

  lemma LockRefused(s: State, keyId: string)
    requires IsReachable(s) && keyId in s.rows && s.rows[keyId].revoked
    ensures forall w :: w in s.writers && Enabled(s, LockKey(w, keyId)) ==> Apply(s, LockKey(w, keyId)).writers[w].refused
  {
    ReachableInv(s);
    hide IsReachable;
    forall w | w in s.writers && Enabled(s, LockKey(w, keyId)) ensures Apply(s, LockKey(w, keyId)).writers[w].refused {
      assert LockedOk(s.rows, s.minted, s.writers[w]);
    }
  }
}
