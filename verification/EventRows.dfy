/** Preparing an event for storage and reading a stored row back. */
module EventRows {
  import opened Options
  import opened FieldPaths
  import opened JsonTree
  import opened JsonErasure
  import opened FieldEncryptor
  import opened FieldDecryption
  import opened CryptoKeys

  datatype EventInput = EventInput(eventType: string, schemaVersion: int, data: Json,
                                   encryptedFields: seq<string>, cryptoKeyId: Option<string>)

  datatype EventRow = EventRow(id: string, eventType: string, schemaVersion: int, data: Json,
                               encryptedData: Option<map<string, Entry>>, cryptoKeyId: Option<string>)

  datatype Replayed =
    | Stored(data: Json)
    | Tombstoned(data: Json, redactedPaths: seq<string>, schemaVersion: int)

  /** applyUpcasters for a type, a stored schema version and data; Error stands for a throw. */
  type Upcaster = (string, int, Json) -> Result<Json>

  /** What the reading process supplies: its upcasters, and how JavaScript turns a value into the
      length of an array. */
  datatype Runtime = Runtime(upcast: Upcaster, toLength: ToLength)

  datatype Prepared = Prepared(row: EventRow, rows: KeyRows)

  function KeyIdGiven(keyId: Option<string>): bool {
    keyId.Some? && keyId.value != ""
  }

  // ---- The write side ----

  /** What prepareEventRow accepts. */
  predicate Preparable(event: EventInput, manager: Option<Replica>, rows: KeyRows) {
    event.encryptedFields == [] ||
    (KeyIdGiven(event.cryptoKeyId) && manager.Some? &&
     UsableKey(manager.value, rows, event.cryptoKeyId.value) &&
     Encryptable(event.data, event.encryptedFields, manager.value.current))
  }

  predicate UsableKey(replica: Replica, rows: KeyRows, keyId: string) {
    var stored := GetStoredKey(replica, rows, keyId);
    stored.Ok? && stored.value.Some?
  }

  /** The stored row of an event whose encrypted fields were sealed with this key. */
  function SealedRow(event: EventInput, id: string, keyId: string, key: string, version: int): EventRow {
    var entries := EntriesOf(event.data, event.encryptedFields, key, version, Context(id, keyId));
    var clean := Erased(event.data, Paths(Present(event.data, event.encryptedFields)));
    if entries == map[] then EventRow(id, event.eventType, event.schemaVersion, clean, None, None)
    else EventRow(id, event.eventType, event.schemaVersion, clean, Some(entries), Some(keyId))
  }

  function PlainRow(event: EventInput, id: string): EventRow {
    EventRow(id, event.eventType, event.schemaVersion, event.data, None, None)
  }

  /** The row and the key table an accepted event leaves. */
  function PreparedOf(event: EventInput, id: string, manager: Option<Replica>, rows: KeyRows): Prepared
    requires Preparable(event, manager, rows) && (manager.Some? ==> manager.value.Valid())
  {
    if event.encryptedFields == [] then Prepared(PlainRow(event, id), rows)
    else
      var keyId, replica := event.cryptoKeyId.value, manager.value;
      var stored := GetStoredKey(replica, rows, keyId).value.value;
      Prepared(SealedRow(event, id, keyId, stored.key, replica.current), Rewrapped(rows, replica, keyId, stored))
  }

  /** The key table after a preparation that failed: the key was rewrapped if it could be used,
      and it was the encryption that failed. */
  function LeftByFailure(event: EventInput, manager: Option<Replica>, rows: KeyRows): KeyRows
    requires manager.Some? ==> manager.value.Valid()
  {
    if event.encryptedFields != [] && KeyIdGiven(event.cryptoKeyId) && manager.Some? &&
       UsableKey(manager.value, rows, event.cryptoKeyId.value)
    then Rewrapped(rows, manager.value, event.cryptoKeyId.value,
                   GetStoredKey(manager.value, rows, event.cryptoKeyId.value).value.value)
    else rows
  }

  /** prepareEventRow. */
  method PrepareEventRow(event: EventInput, id: string, manager: Option<Replica>, table: KeyTable) returns (r: Result<EventRow>)
    requires manager.Some? ==> manager.value.Valid()
    modifies table
    ensures r.Ok? <==> Preparable(event, manager, old(table.rows))
    ensures r.Ok? ==> Prepared(r.value, table.rows) == PreparedOf(event, id, manager, old(table.rows))
    ensures r.Error? ==> table.rows == LeftByFailure(event, manager, old(table.rows))
  {
    hide Erased, Present, Paths, EntriesOf, Encryptable, Rewrapped, GetStoredKey;
    var dataToStore, encryptedData, cryptoKeyId := event.data, None, event.cryptoKeyId;
    if |event.encryptedFields| > 0 {
      if !KeyIdGiven(cryptoKeyId) {
        return Error("Crypto key id required");
      }
      if manager.None? {
        return Error("Crypto secrets required");
      }
      var keyId := cryptoKeyId.value;
      var key := table.GetKeyForEncryption(manager.value, keyId);
      if key.Error? {
        return Error(key.message);
      }
      var encrypted := EncryptFields(event.data, event.encryptedFields, key.value, manager.value.current, Context(id, keyId));
      if encrypted.Error? {
        return Error(encrypted.message);
      }
      dataToStore := encrypted.value.clean;
      if encrypted.value.entries != map[] {
        encryptedData := Some(encrypted.value.entries);
      } else {
        cryptoKeyId := None;
      }
    } else {
      cryptoKeyId := None;
    }
    r := Ok(EventRow(id, event.eventType, event.schemaVersion, dataToStore, encryptedData, cryptoKeyId));
  }

  // ---- The read side ----

  function EntriesIn(row: EventRow): map<string, Entry> {
    if row.encryptedData.Some? then row.encryptedData.value else map[]
  }

  type KeyCache = map<string, Option<string>>

  /** getKey. */
  function GetKey(replica: Replica, rows: KeyRows, keyId: string): Result<Option<string>> {
    match GetStoredKey(replica, rows, keyId)
    case Error(message) => Error(message)
    case Ok(None) => Ok(None)
    case Ok(Some(stored)) => Ok(Some(stored.key))
  }

  /** The key resolveDecryptionKey answers: the cached one, or the one looked up now. */
  function ResolvedKey(replica: Replica, keyCache: KeyCache, rows: KeyRows, keyId: string): Result<Option<string>> {
    if keyId in keyCache then Ok(keyCache[keyId]) else GetKey(replica, rows, keyId)
  }

  /** resolveDecryptionKey: every key is looked up at most once per cache. */
  method ResolveDecryptionKey(replica: Replica, keyCache: KeyCache, rows: KeyRows, keyId: string)
    returns (key: Result<Option<string>>, cache: KeyCache)
    ensures key == ResolvedKey(replica, keyCache, rows, keyId)
    ensures cache == if key.Ok? then keyCache[keyId := key.value] else keyCache
  {
    cache := keyCache;
    if keyId in cache {
      key := Ok(cache[keyId]);
      return;
    }
    key := GetKey(replica, rows, keyId);
    if key.Ok? {
      cache := cache[keyId := key.value];
    }
  }

  /** The row's data with nulls at its encrypted fields. */
  function PayloadOf(row: EventRow, env: Runtime, order: seq<string>): Option<Json>
    requires forall f :: f in order ==> f in EntriesIn(row)
  {
    SetAll(env.toLength, row.data, order, Nulls(EntriesIn(row).Keys))
  }

  /** A cache that holds nothing but minted keys and revocations. */
  ghost predicate Truthful(keyCache: KeyCache, minted: map<string, string>) {
    forall k :: k in keyCache && keyCache[k].Some? ==> k in minted && keyCache[k].value == minted[k]
  }

  /** A key that is answered is the one minted for its id, from the cache or from an intact row,
      whichever secret wraps it now; and the cache stays truthful with it. */
  lemma ResolvedKeyIsMinted(replica: Replica, keyCache: KeyCache, rows: KeyRows, keyId: string, minted: map<string, string>)
    requires Truthful(keyCache, minted)
    requires keyId in rows ==> keyId in minted && RowOk(keyId, rows[keyId], minted[keyId])
    ensures var key := ResolvedKey(replica, keyCache, rows, keyId);
            key.Ok? ==> (key.value.Some? ==> keyId in minted && key.value.value == minted[keyId]) &&
                        Truthful(keyCache[keyId := key.value], minted)
    ensures keyId !in keyCache && keyId in rows && rows[keyId].revoked ==> ResolvedKey(replica, keyCache, rows, keyId) == Ok(None)
  {
    if keyId in rows {
      StoredKeyOfRow(replica, rows, keyId, minted[keyId]);
    }
  }

  /** What a reader gets from a row once its key is resolved; None stands for an error. */
  function Replay(row: EventRow, manager: Option<Replica>, key: Result<Option<string>>, env: Runtime, order: seq<string>)
    : Option<Replayed>
    requires forall f :: f in order ==> f in EntriesIn(row)
  {
    if EntriesIn(row) == map[] then Upcasted(row, row.data, env)
    else if !KeyIdGiven(row.cryptoKeyId) || manager.None? || key.Error? then None
    else
      match key.value
      case None =>
        if forall f :: f in EntriesIn(row) ==> ValidFieldPath(f)
        then
          var data := PayloadOf(row, env, order);
          if data.None? then None else Some(Tombstoned(data.value, order, row.schemaVersion))
        else None
      case Some(aesKey) =>
        if forall f :: f in EntriesIn(row) ==>
             Opens(f, EntriesIn(row)[f], aesKey, Context(row.id, row.cryptoKeyId.value))
        then
          var data := SetAll(env.toLength, row.data, order, Plaintexts(EntriesIn(row)));
          if data.None? then None else Upcasted(row, data.value, env)
        else None
  }

  function Upcasted(row: EventRow, data: Json, env: Runtime): Option<Replayed> {
    match env.upcast(row.eventType, row.schemaVersion, data)
    case Ok(value) => Some(Stored(value))
    case Error(_) => None
  }

  /** What is shown is the data upcast from this type and version: the value if the upcasters
      give one, an error if one of them throws. */
  ghost predicate ShowsUpcast(shown: Option<Replayed>, env: Runtime, eventType: string, schemaVersion: int, data: Json) {
    match env.upcast(eventType, schemaVersion, data)
    case Ok(value) => shown == Some(Stored(value))
    case Error(_) => shown == None
  }

  function Shown(r: Result<Replayed>): Option<Replayed> {
    if r.Ok? then Some(r.value) else None
  }

  /** processRow: decrypt, then upcast; or the tombstone of a revoked key, which is not
      upcast. */
  method ProcessRow(row: EventRow, manager: Option<Replica>, env: Runtime, keyCache: KeyCache, rows: KeyRows,
                    order: seq<string>)
    returns (r: Result<Replayed>, cache: KeyCache)
    requires Enumerates(order, EntriesIn(row).Keys)
    ensures var key := if manager.Some? && KeyIdGiven(row.cryptoKeyId)
                       then ResolvedKey(manager.value, keyCache, rows, row.cryptoKeyId.value) else Error("");
            var expected := Replay(row, manager, key, env, order);
            if expected.Some? then r == Ok(expected.value) else r.Error?
    ensures EntriesIn(row) == map[] ==> ShowsUpcast(Shown(r), env, row.eventType, row.schemaVersion, row.data)
    ensures EntriesIn(row) != map[] && manager.Some? && KeyIdGiven(row.cryptoKeyId) ==>
              match ResolvedKey(manager.value, keyCache, rows, row.cryptoKeyId.value)
              case Ok(Some(aesKey)) =>
                var data := SetAll(env.toLength, row.data, order, Plaintexts(EntriesIn(row)));
                if data.Some? && forall f :: f in EntriesIn(row) ==>
                     Opens(f, EntriesIn(row)[f], aesKey, Context(row.id, row.cryptoKeyId.value))
                then ShowsUpcast(Shown(r), env, row.eventType, row.schemaVersion, data.value)
                else r.Error?
              case _ => r.Ok? ==> r.value.Tombstoned?
    ensures r.Ok? && EntriesIn(row) != map[] ==>
              KeyIdGiven(row.cryptoKeyId) && row.cryptoKeyId.value in cache && manager.Some? &&
              ResolvedKey(manager.value, keyCache, rows, row.cryptoKeyId.value) == Ok(cache[row.cryptoKeyId.value])
    ensures forall k :: k in keyCache ==> k in cache && cache[k] == keyCache[k]
    ensures forall k :: k in cache && k !in keyCache ==>
              manager.Some? && GetKey(manager.value, rows, k) == Ok(cache[k])
  {
    hide SetAll, Opens, ValidFieldPath, GetStoredKey;
    cache := keyCache;
    var entries := EntriesIn(row);
    if entries == map[] {
      var plain := env.upcast(row.eventType, row.schemaVersion, row.data);
      r := if plain.Ok? then Ok(Stored(plain.value)) else Error(plain.message);
      return;
    }
    if !KeyIdGiven(row.cryptoKeyId) {
      r := Error("Crypto key ID missing");
      return;
    }
    if manager.None? {
      r := Error("Crypto configuration required to read encrypted event");
      return;
    }
    var key;
    key, cache := ResolveDecryptionKey(manager.value, keyCache, rows, row.cryptoKeyId.value);
    if key.Error? {
      r := Error(key.message);
      return;
    }
    if key.value.None? {
      var redacted := RedactFields(env.toLength, row.data, entries, order);
      r := if redacted.Ok? then Ok(Tombstoned(redacted.value, order, row.schemaVersion)) else Error(redacted.message);
      return;
    }
    var decrypted := DecryptFields(env.toLength, row.data, entries, order, key.value.value, Context(row.id, row.cryptoKeyId.value));
    if decrypted.Error? {
      r := Error(decrypted.message);
      return;
    }
    var final := env.upcast(row.eventType, row.schemaVersion, decrypted.value);
    r := if final.Ok? then Ok(Stored(final.value)) else Error(final.message);
  }

  function CachedKey(keyCache: KeyCache, row: EventRow): Result<Option<string>> {
    if KeyIdGiven(row.cryptoKeyId) && row.cryptoKeyId.value in keyCache then Ok(keyCache[row.cryptoKeyId.value])
    else Error("")
  }

  /** The row reads as this event, given these keys. */
  predicate ReadsUnder(row: EventRow, manager: Option<Replica>, keyCache: KeyCache, env: Runtime, order: seq<string>,
                       event: Replayed) {
    (forall f :: f in order ==> f in EntriesIn(row)) &&
    Replay(row, manager, CachedKey(keyCache, row), env, order) == Some(event)
  }

  /** The row cannot be read with these keys and this table. */
  predicate FailsUnder(row: EventRow, manager: Option<Replica>, keyCache: KeyCache, table: KeyRows, env: Runtime,
                       order: seq<string>) {
    (forall f :: f in order ==> f in EntriesIn(row)) &&
    Replay(row, manager, if manager.Some? && KeyIdGiven(row.cryptoKeyId)
                         then ResolvedKey(manager.value, keyCache, table, row.cryptoKeyId.value) else Error(""),
           env, order) == None
  }

  lemma StillFails(row: EventRow, manager: Option<Replica>, before: KeyCache, after: KeyCache, table: KeyRows, env: Runtime,
                   order: seq<string>)
    requires FailsUnder(row, manager, before, table, env, order)
    requires forall k :: k in before ==> k in after && after[k] == before[k]
    requires forall k :: k in after && k !in before ==> manager.Some? && GetKey(manager.value, table, k) == Ok(after[k])
    ensures FailsUnder(row, manager, after, table, env, order)
  {
    hide SetAll, Opens, ValidFieldPath, GetKey;
  }

  lemma ReadsUnderMore(row: EventRow, manager: Option<Replica>, before: KeyCache, after: KeyCache, env: Runtime,
                       order: seq<string>, event: Replayed)
    requires ReadsUnder(row, manager, before, env, order, event)
    requires forall k :: k in before ==> k in after && after[k] == before[k]
    ensures ReadsUnder(row, manager, after, env, order, event)
  {
    hide SetAll, Opens, ValidFieldPath;
  }

  /** The loop over the rows of one read: tables[i] is the key table when row i is read.  However
      the table changes meanwhile, all rows are read under one assignment of keys, each looked
      up once. */
  method ProcessRows(rows: seq<EventRow>, manager: Option<Replica>, env: Runtime, tables: seq<KeyRows>,
                     orders: seq<seq<string>>)
    returns (r: Result<seq<Replayed>>, keyCache: KeyCache)
    requires |tables| == |rows| == |orders|
    requires forall i :: 0 <= i < |rows| ==> Enumerates(orders[i], EntriesIn(rows[i]).Keys)
    ensures r.Ok? ==> |r.value| == |rows| &&
                      forall i :: 0 <= i < |rows| ==> ReadsUnder(rows[i], manager, keyCache, env, orders[i], r.value[i])
    ensures forall k :: k in keyCache ==>
              manager.Some? && exists i :: 0 <= i < |tables| && GetKey(manager.value, tables[i], k) == Ok(keyCache[k])
    ensures r.Error? ==> exists n :: 0 <= n < |rows| && FailsUnder(rows[n], manager, keyCache, tables[n], env, orders[n])
  {
    hide GetKey, Enumerates;
    var events := [];
    keyCache := map[];
    for n := 0 to |rows|
      invariant |events| == n
      invariant forall i :: 0 <= i < n ==> ReadsUnder(rows[i], manager, keyCache, env, orders[i], events[i])
      invariant forall k :: k in keyCache ==>
                  manager.Some? && exists i :: 0 <= i < |tables| && GetKey(manager.value, tables[i], k) == Ok(keyCache[k])
    {
      ListedEntries(rows[n], orders[n]);
      ghost var before := keyCache;
      var event;
      event, keyCache := ProcessRow(rows[n], manager, env, keyCache, tables[n], orders[n]);
      if event.Error? {
        StillFails(rows[n], manager, before, keyCache, tables[n], env, orders[n]);
        r := Error(event.message);
        return;
      }
      PlainNeedsNoKey(rows[n], manager, env, orders[n]);
      hide Replay, ReadsUnder, ResolvedKey;
      forall i | 0 <= i < n ensures ReadsUnder(rows[i], manager, keyCache, env, orders[i], events[i]) {
        ReadsUnderMore(rows[i], manager, before, keyCache, env, orders[i], events[i]);
      }
      events := events + [event.value];
    }
    r := Ok(events);
  }

  lemma ListedEntries(row: EventRow, order: seq<string>)
    requires Enumerates(order, EntriesIn(row).Keys)
    ensures forall f :: f in order ==> f in EntriesIn(row)
  {
  }

  lemma PlainNeedsNoKey(row: EventRow, manager: Option<Replica>, env: Runtime, order: seq<string>)
    requires forall f :: f in order ==> f in EntriesIn(row)
    ensures EntriesIn(row) == map[] ==>
              forall a, b :: Replay(row, manager, a, env, order) == Replay(row, manager, b, env, order)
  {
  }

  // ---- Writing and reading together ----

  /** No field was there to encrypt: the row is plain and keeps the data as it was. */
  lemma NothingToSeal(event: EventInput, id: string, keyId: string, key: string, version: int)
    requires EntriesOf(event.data, event.encryptedFields, key, version, Context(id, keyId)) == map[]
    ensures SealedRow(event, id, keyId, key, version) == PlainRow(event, id)
  {
    EntryKeys(event.data, event.encryptedFields, key, version, Context(id, keyId));
    var present := Present(event.data, event.encryptedFields);
    var entries := EntriesOf(event.data, event.encryptedFields, key, version, Context(id, keyId));
    NonEmptyHasMember(present);
    assert forall f :: f in present ==> f in (set g | g in present) && f in entries.Keys && f in entries;
    assert Paths([]) == [];
  }

  /** A sealed row read with its key gives the upcast original data. */
  lemma SealedRowReads(event: EventInput, id: string, keyId: string, key: string, manager: Replica, env: Runtime,
                       version: int, order: seq<string>)
    requires keyId != "" && Encryptable(event.data, event.encryptedFields, version)
    requires Enumerates(order, EntriesIn(SealedRow(event, id, keyId, key, version)).Keys)
    ensures var row := SealedRow(event, id, keyId, key, version);
            ShowsUpcast(Replay(row, Some(manager), Ok(Some(key)), env, order), env, event.eventType, event.schemaVersion, event.data)
  {
    if EntriesOf(event.data, event.encryptedFields, key, version, Context(id, keyId)) == map[] {
      NothingToSeal(event, id, keyId, key, version);
    } else {
      hide Erased, Present, Paths, EntriesOf, Encryptable, SetAll, Opens, Plaintexts, Enumerates;
      ListedEntries(SealedRow(event, id, keyId, key, version), order);
      RoundTrip(env.toLength, event.data, event.encryptedFields, key, version, Context(id, keyId), order);
    }
  }

  /** A sealed row read after revocation: a tombstone, not upcast, whose data is the original
      with exactly the encrypted fields null. */
  lemma SealedRowRedacts(event: EventInput, id: string, keyId: string, key: string, manager: Replica, env: Runtime,
                         version: int, order: seq<string>)
    requires keyId != "" && Encryptable(event.data, event.encryptedFields, version)
    requires Enumerates(order, EntriesIn(SealedRow(event, id, keyId, key, version)).Keys)
    requires EntriesIn(SealedRow(event, id, keyId, key, version)) != map[]
    ensures var row := SealedRow(event, id, keyId, key, version);
            var nulls := Nulls(EntriesIn(row).Keys);
            Replay(row, Some(manager), Ok(None), env, order) ==
              Some(Tombstoned(Filled(event.data, order, nulls), order, event.schemaVersion))
  {
    hide Erased, Present, Paths, EntriesOf, Encryptable, SetAll, Filled, ValidFieldPath;
    Redaction(env.toLength, event.data, event.encryptedFields, key, version, Context(id, keyId), order);
  }

  // ---- The outbox payload ----

  /** The data member of buildCloudEventsPayload: redacted when anything is encrypted. */
  method PayloadData(row: EventRow, env: Runtime, order: seq<string>) returns (r: Result<Json>)
    requires Enumerates(order, EntriesIn(row).Keys)
    ensures row.encryptedData.None? ==> r == Ok(row.data)
    ensures row.encryptedData.Some? ==>
              (r.Ok? <==> (forall f :: f in EntriesIn(row) ==> ValidFieldPath(f)) && PayloadOf(row, env, order).Some?) &&
              (r.Ok? ==> Some(r.value) == PayloadOf(row, env, order))
  {
    if row.encryptedData.None? {
      return Ok(row.data);
    }
    r := RedactFields(env.toLength, row.data, row.encryptedData.value, order);
  }

  /** What goes to the outbox is what a reader sees after the key is revoked: the two list the
      entries in different orders (insertion order here, JSONB's there) and agree, whatever
      JavaScript takes for a length in either process. */
  lemma PayloadIsTombstoneData(event: EventInput, id: string, keyId: string, key: string, manager: Replica, env: Runtime,
                               writing: Runtime, version: int, order: seq<string>, stored: seq<string>)
    requires keyId != "" && Encryptable(event.data, event.encryptedFields, version)
    requires Enumerates(order, EntriesIn(SealedRow(event, id, keyId, key, version)).Keys)
    requires Enumerates(stored, EntriesIn(SealedRow(event, id, keyId, key, version)).Keys)
    requires EntriesIn(SealedRow(event, id, keyId, key, version)) != map[]
    ensures var row := SealedRow(event, id, keyId, key, version);
            (forall f :: f in EntriesIn(row) ==> ValidFieldPath(f)) && PayloadOf(row, writing, order).Some? &&
            Replay(row, Some(manager), Ok(None), env, stored) ==
              Some(Tombstoned(PayloadOf(row, writing, order).value, stored, event.schemaVersion))
  {
    hide Erased, Present, Paths, EntriesOf, Encryptable, SetAll, Filled, ValidFieldPath;
    Redaction(env.toLength, event.data, event.encryptedFields, key, version, Context(id, keyId), stored);
    Redaction(writing.toLength, event.data, event.encryptedFields, key, version, Context(id, keyId), order);
    RedactionAnyOrder(env.toLength, event.data, event.encryptedFields, key, version, Context(id, keyId), order, stored);
    Redaction(env.toLength, event.data, event.encryptedFields, key, version, Context(id, keyId), order);
  }
}
