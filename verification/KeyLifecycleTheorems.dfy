/** Key rows over whole runs, and what every stored event reads as. */
module KeyLifecycleTheorems {
  import opened Options
  import opened FieldPaths
  import opened JsonTree
  import opened JsonErasure
  import opened FieldEncryptor
  import opened FieldDecryption
  import opened CryptoKeys
  import opened EventRows
  import opened KeyLifecycle

  ghost predicate RevokedIn(s: State, keyId: Option<string>) {
    keyId.Some? && keyId.value in s.rows && s.rows[keyId.value].revoked
  }

  /** Every key row is continued, and events are only added, none of them under a key already
      revoked. */
  ghost predicate Progresses(s: State, s': State) {
    && (forall k :: k in s.rows ==> k in s'.rows && Continues(s.rows[k], s'.rows[k]))
    && (forall k :: k in s.minted ==> k in s'.minted && s'.minted[k] == s.minted[k])
    && s.events <= s'.events
    && (forall i :: |s.events| <= i < |s'.events| ==> !RevokedIn(s, s'.events[i].row.cryptoKeyId))
  }

  lemma CommitProgresses(s: State, w: nat)
    requires Inv(s) && w in s.writers
    ensures Progresses(s, DoCommit(s, w))
  {
    var x, s' := s.writers[w], DoCommit(s, w);
    hide EventOk, RowOk, EventsOk;
    assert LockedOk(s.rows, s.minted, x) && PendingOk(s.minted, x);
    forall k | k in s.rows ensures Continues(s.rows[k], s'.rows[k]) {
      if k !in x.rows {
        RowContinuesItself(s, k);
      }
    }
  }

  lemma RowContinuesItself(s: State, k: string)
    requires KeysOk(s) && k in s.rows
    ensures Continues(s.rows[k], s.rows[k])
  {
  }

  lemma SameRowsProgress(s: State, s': State)
    requires KeysOk(s) && s'.rows == s.rows && s'.minted == s.minted && s'.events == s.events
    ensures Progresses(s, s')
  {
  }

  lemma StepProgresses(s: State, a: Step)
    requires Inv(s) && Enabled(s, a)
    ensures Progresses(s, Apply(s, a))
  {
    if a.Commit? {
      CommitProgresses(s, a.w);
    } else if a.CreateKey? || a.RevokeKey? {
      hide EventsOk, WritersOk;
    } else {
      hide EventsOk, WritersOk, Preparable, PreparedOf, NeedsKey;
      SameRowsProgress(s, Apply(s, a));
    }
  }

  lemma ProgressesTransitive(a: State, b: State, c: State)
    requires Progresses(a, b) && Progresses(b, c)
    ensures Progresses(a, c)
  {
  }

  /** Key lifecycle: over every run from a reachable state, revocation is final, an unrevoked
      key keeps its entity key and its envelope version does not go down, and no event sealed
      under a revoked key is ever added. */
  lemma {:induction false} KeyHistory(s: State, steps: seq<Step>)
    requires IsReachable(s) && Runs(s, steps)
    ensures Progresses(s, After(s, steps)) && Inv(After(s, steps))
  {
    ReachableInv(s);
    RunProgresses(s, steps);
    RunKeepsInv(s, steps);
  }

  lemma {:induction false} RunProgresses(s: State, steps: seq<Step>)
    requires Inv(s) && Runs(s, steps)
    ensures Progresses(s, After(s, steps))
    decreases |steps|
  {
    if steps == [] {
      SameRowsProgress(s, s);
    } else {
      StepKeepsInv(s, steps[0]);
      StepProgresses(s, steps[0]);
      hide Inv, Enabled, Apply, Progresses;
      RunProgresses(Apply(s, steps[0]), steps[1..]);
      ProgressesTransitive(s, Apply(s, steps[0]), After(s, steps));
    }
  }

  /** What the reader of an event is shown: the tombstone whose data is the original with
      exactly the encrypted fields null. */
  ghost predicate IsRedactionOf(shown: Option<Replayed>, e: Written, order: seq<string>) {
    && shown.Some? && shown.value.Tombstoned?
    && shown.value.redactedPaths == order && shown.value.schemaVersion == e.input.schemaVersion
    && (forall f :: f in order ==> Get(shown.value.data, Split(f)) == Some(Null))
    && (forall q: Path :: q != [] && ApartFromAll(q, Paths(order)) ==> Get(shown.value.data, q) == Get(e.input.data, q))
  }

  lemma RedactionOf(e: Written, key: string, replica: Replica, env: Runtime, order: seq<string>)
    requires EntriesIn(e.row) != map[] && KeyIdGiven(e.input.cryptoKeyId)
    requires Encryptable(e.input.data, e.input.encryptedFields, e.version)
    requires e.row == SealedRow(e.input, e.row.id, e.input.cryptoKeyId.value, key, e.version)
    requires Enumerates(order, EntriesIn(e.row).Keys)
    ensures IsRedactionOf(Replay(e.row, Some(replica), Ok(None), env, order), e, order)
  {
    var keyId := e.input.cryptoKeyId.value;
    hide Erased, Present, Paths, EntriesOf, Encryptable, SetAll, Filled, ValidFieldPath;
    SealedRowRedacts(e.input, e.row.id, keyId, key, replica, env, e.version, order);
    Redaction(env.toLength, e.input.data, e.input.encryptedFields, key, e.version, Context(e.row.id, keyId), order);
  }

  ghost predicate ReadsAs(key: KeyRow, e: Written, replica: Replica, env: Runtime, order: seq<string>, shown: Option<Replayed>) {
    if key.revoked then IsRedactionOf(shown, e, order)
    else if key.encryptedKey.Some? && Holds(replica, key.encryptedKey.value)
    then ShowsUpcast(shown, env, e.input.eventType, e.input.schemaVersion, e.input.data)
    else shown == None
  }

  lemma ReplayError(row: EventRow, manager: Option<Replica>, key: Result<Option<string>>, env: Runtime, order: seq<string>)
    requires EntriesIn(row) != map[] && key.Error? && forall f :: f in order ==> f in EntriesIn(row)
    ensures Replay(row, manager, key, env, order) == None
  {
  }

  lemma EventInState(s: State, i: nat)
    requires IsReachable(s) && i < |s.events|
    ensures EventOk(s.minted, s.events[i])
    ensures forall k :: k in s.minted ==> k in s.rows && RowOk(k, s.rows[k], s.minted[k])
  {
    ReachableInv(s);
  }

  lemma ReadThroughRow(rows: KeyRows, minted: string, e: Written, replica: Replica, env: Runtime, order: seq<string>)
    requires EntriesIn(e.row) != map[] && KeyIdGiven(e.input.cryptoKeyId) && Enumerates(order, EntriesIn(e.row).Keys)
    requires Encryptable(e.input.data, e.input.encryptedFields, e.version)
    requires e.row == SealedRow(e.input, e.row.id, e.input.cryptoKeyId.value, minted, e.version)
    requires e.input.cryptoKeyId.value in rows
    requires RowOk(e.input.cryptoKeyId.value, rows[e.input.cryptoKeyId.value], minted)
    ensures ReadsAs(rows[e.input.cryptoKeyId.value], e, replica, env, order,
                    Replay(e.row, Some(replica), GetKey(replica, rows, e.input.cryptoKeyId.value), env, order))
  {
    var keyId := e.input.cryptoKeyId.value;
    var row := rows[keyId];
    KeyOfRow(replica, rows, keyId, minted);
    hide SealedRow, Encryptable, Replay, IsRedactionOf, Holds, RowOk, GetKey, EntriesIn;
    if row.revoked {
      RedactionOf(e, minted, replica, env, order);
    } else if Holds(replica, row.encryptedKey.value) {
      SealedRowReads(e.input, e.row.id, keyId, minted, replica, env, e.version, order);
    } else {
      ReplayError(e.row, Some(replica), GetKey(replica, rows, keyId), env, order);
    }
  }

  lemma KeyOfRow(replica: Replica, rows: KeyRows, keyId: string, minted: string)
    requires keyId in rows && RowOk(keyId, rows[keyId], minted)
    ensures var key, row := GetKey(replica, rows, keyId), rows[keyId];
            if row.revoked then key == Ok(None)
            else row.encryptedKey.Some? &&
                 (if Holds(replica, row.encryptedKey.value) then key == Ok(Some(minted)) else key.Error?)
  {
    StoredKeyOfRow(replica, rows, keyId, minted);
  }

  /** Reading: in every reachable state a stored event with nothing encrypted reads as its
      upcast data; one with encrypted fields reads as its upcast original data as long as its
      key is not revoked and the reader holds the secret of the key's envelope, fails when the
      reader lacks that secret, and reads as its redaction, not upcast, once revoked. */
  lemma StoredEventsRead(s: State, i: nat, replica: Replica, env: Runtime, order: seq<string>)
    requires IsReachable(s) && i < |s.events| && Enumerates(order, EntriesIn(s.events[i].row).Keys)
    ensures var e := s.events[i];
            if EntriesIn(e.row) == map[]
            then forall manager, key ::
                   ShowsUpcast(Replay(e.row, manager, key, env, order), env, e.input.eventType, e.input.schemaVersion, e.input.data)
            else KeyIdGiven(e.input.cryptoKeyId) && e.input.cryptoKeyId.value in s.rows &&
                 ReadsAs(s.rows[e.input.cryptoKeyId.value], e, replica, env, order,
                         Replay(e.row, Some(replica), GetKey(replica, s.rows, e.input.cryptoKeyId.value), env, order))
  {
    var e := s.events[i];
    EventInState(s, i);
    hide IsReachable, SealedRow, Encryptable, ReadsAs, GetKey;
    if EntriesIn(e.row) != map[] {
      ReadThroughRow(s.rows, s.minted[e.input.cryptoKeyId.value], e, replica, env, order);
    }
  }

  /** A key cached by a reader keeps opening the events of every later state, even after a
      revocation the reader has not looked up. */
  lemma CachedKeyKeepsReading(s: State, steps: seq<Step>, i: nat, replica: Replica, reader: Replica, key: string,
                              env: Runtime, order: seq<string>)
    requires IsReachable(s) && Runs(s, steps) && i < |After(s, steps).events|
    requires Enumerates(order, EntriesIn(After(s, steps).events[i].row).Keys)
    requires var keyId := After(s, steps).events[i].row.cryptoKeyId;
             keyId.Some? && GetKey(replica, s.rows, keyId.value) == Ok(Some(key))
    ensures var e := After(s, steps).events[i];
            ShowsUpcast(Replay(e.row, Some(reader), Ok(Some(key)), env, order), env, e.input.eventType, e.input.schemaVersion,
                        e.input.data)
  {
    ReachableInv(s);
    KeyHistory(s, steps);
    var s' := After(s, steps);
    var e := s'.events[i];
    assert EventOk(s'.minted, e);
    var keyId := e.row.cryptoKeyId.value;
    hide Runs, After, IsReachable;
    if EntriesIn(e.row) != map[] {
      assert keyId in s.rows && RowOk(keyId, s.rows[keyId], s.minted[keyId]);
      StoredKeyOfRow(replica, s.rows, keyId, s.minted[keyId]);
      hide SealedRow, Encryptable, Inv, Replay;
      SealedRowReads(e.input, e.row.id, keyId, key, reader, env, e.version, order);
    }
  }
}
