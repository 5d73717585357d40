/** Entity keys and the rows that hold them, wrapped under versioned secrets.

    An envelope is an ideal sealed box: it opens only under the secret, key id and version
    header it was sealed with (AES-GCM with additional data, section 7 of NIST SP 800-38D). */
module CryptoKeys {
  import opened Options

  const MAX_SECRET_VERSION := 0xffffffff

  /** A configured CryptoKeyManager: its secrets and the version it writes with. */
  datatype Replica = Replica(current: nat, secrets: map<nat, string>) {
    predicate Valid() {
      current in secrets && forall v :: v in secrets ==> v <= MAX_SECRET_VERSION
    }
  }

  datatype KeyBox = KeyBox(secret: string, keyId: string, version: nat, entityKey: string)

  datatype Envelope = Envelope(version: nat, box: KeyBox)

  /** A row of crypto_keys. */
  datatype KeyRow = KeyRow(encryptedKey: Option<Envelope>, revoked: bool)

  type KeyRows = map<string, KeyRow>

  datatype StoredKey = StoredKey(key: string, version: nat)

  function Max(a: nat, b: nat): nat {
    if a >= b then a else b
  }

  /** encryptWithCurrentSecret. */
  function Wrap(replica: Replica, keyId: string, entityKey: string): Envelope
    requires replica.Valid()
  {
    Envelope(replica.current, KeyBox(replica.secrets[replica.current], keyId, replica.current, entityKey))
  }

  /** The envelope was sealed for this key id, with its own version as header. */
  predicate SealedFor(e: Envelope, keyId: string) {
    e.box.keyId == keyId && e.box.version == e.version
  }

  /** The replica holds the secret the envelope was sealed with. */
  predicate Holds(replica: Replica, e: Envelope) {
    e.version in replica.secrets && replica.secrets[e.version] == e.box.secret
  }

  /** decryptStoredKey. */
  function Unwrap(replica: Replica, keyId: string, e: Envelope): Result<StoredKey> {
    if e.version !in replica.secrets then Error("Crypto secret version not found")
    else if replica.secrets[e.version] == e.box.secret && SealedFor(e, keyId)
    then Ok(StoredKey(e.box.entityKey, e.version))
    else Error("Unsupported state or unable to authenticate data")
  }

  /** getStoredKey: Ok(None) for a revoked key. */
  function GetStoredKey(replica: Replica, rows: KeyRows, keyId: string): Result<Option<StoredKey>> {
    if keyId !in rows then Error("Crypto key not found")
    else if rows[keyId].revoked then Ok(None)
    else
      match rows[keyId].encryptedKey
      case None => Error("Crypto key material is missing")
      case Some(e) =>
        match Unwrap(replica, keyId, e)
        case Ok(stored) => Ok(Some(stored))
        case Error(message) => Error(message)
  }

  // ---- What the statements leave in the table ----

  /** INSERT ... ON CONFLICT DO NOTHING. */
  function Created(rows: KeyRows, replica: Replica, keyId: string, entityKey: string): KeyRows
    requires replica.Valid()
  {
    if keyId in rows then rows else rows[keyId := KeyRow(Some(Wrap(replica, keyId, entityKey)), false)]
  }

  /** Only an envelope older than the writer's version is sealed again. */
  function Rewrapped(rows: KeyRows, replica: Replica, keyId: string, stored: StoredKey): KeyRows
    requires replica.Valid() && keyId in rows
  {
    if stored.version < replica.current && !rows[keyId].revoked
    then rows[keyId := rows[keyId].(encryptedKey := Some(Wrap(replica, keyId, stored.key)))]
    else rows
  }

  function Revoked(rows: KeyRows, keyId: string): KeyRows
    requires keyId in rows
  {
    rows[keyId := KeyRow(None, true)]
  }

  /** The statements of the key manager on the crypto_keys table. */
  class KeyTable {
    var rows: KeyRows

    constructor ()
      ensures rows == map[]
    {
      rows := map[];
    }

    /** createKey: every key there is stays as it is, live or revoked; a new one opens for its
        creator as the key it was given. */
    method CreateKey(replica: Replica, keyId: string, entityKey: string)
      requires replica.Valid()
      modifies this
      ensures rows == Created(old(rows), replica, keyId, entityKey)
      ensures rows.Keys == old(rows).Keys + {keyId} && forall k :: k in old(rows) ==> rows[k] == old(rows)[k]
      ensures keyId !in old(rows) ==>
                GetStoredKey(replica, rows, keyId) == Ok(Some(StoredKey(entityKey, replica.current)))
      ensures keyId in old(rows) ==> GetStoredKey(replica, rows, keyId) == GetStoredKey(replica, old(rows), keyId)
    {
      var encryptedKey := Wrap(replica, keyId, entityKey);
      if keyId !in rows {
        rows := rows[keyId := KeyRow(Some(encryptedKey), false)];
      }
    }

    /** getKeyForEncryption: the entity key, now sealed under no older version than the writer's,
        or an error and an unchanged table. */
    method GetKeyForEncryption(replica: Replica, keyId: string) returns (r: Result<string>)
      requires replica.Valid()
      modifies this
      ensures var stored := GetStoredKey(replica, old(rows), keyId);
              if stored.Ok? && stored.value.Some?
              then r == Ok(stored.value.value.key) && rows == Rewrapped(old(rows), replica, keyId, stored.value.value)
              else r.Error? && rows == old(rows)
      ensures r.Ok? ==>
                var stored := GetStoredKey(replica, old(rows), keyId).value.value;
                GetStoredKey(replica, rows, keyId) == Ok(Some(StoredKey(r.value, Max(stored.version, replica.current))))
    {
      var lookup := GetStoredKey(replica, rows, keyId);
      if lookup.Error? {
        return Error(lookup.message);
      }
      if lookup.value.None? {
        return Error("Crypto key revoked");
      }
      var stored := lookup.value.value;
      if stored.version < replica.current {
        var encryptedKey := Wrap(replica, keyId, stored.key);
        if keyId in rows && !rows[keyId].revoked {
          rows := rows[keyId := KeyRow(Some(encryptedKey), false)];
        }
      }
      r := Ok(stored.key);
    }

    /** revokeKey: no replica reads the key any more, whatever secrets it holds, and every other
        key reads as before.  False stands for the key-not-found error. */
    method RevokeKey(keyId: string) returns (found: bool)
      modifies this
      ensures found <==> keyId in old(rows)
      ensures found ==> forall replica: Replica :: GetStoredKey(replica, rows, keyId) == Ok(None)
      ensures forall replica: Replica, k: string :: k != keyId ==> GetStoredKey(replica, rows, k) == GetStoredKey(replica, old(rows), k)
      ensures rows == if found then Revoked(old(rows), keyId) else old(rows)
    {
      found := keyId in rows;
      if found {
        rows := rows[keyId := KeyRow(None, true)];
      }
    }
  }

  // ---- One row's history ----

  /** A row as the manager leaves it: revoked without material, or sealed for its key id. */
  ghost predicate RowOk(keyId: string, row: KeyRow, minted: string) {
    if row.revoked then row.encryptedKey.None?
    else row.encryptedKey.Some? && SealedFor(row.encryptedKey.value, keyId) &&
         row.encryptedKey.value.box.entityKey == minted
  }

  /** The later row continues the earlier one: revocation is final, and until then the entity
      key stays and the envelope version does not go down. */
  ghost predicate Continues(before: KeyRow, after: KeyRow) {
    if before.revoked then after == before
    else after.revoked ||
         (before.encryptedKey.Some? && after.encryptedKey.Some? &&
          after.encryptedKey.value.box.entityKey == before.encryptedKey.value.box.entityKey &&
          before.encryptedKey.value.version <= after.encryptedKey.value.version)
  }

  /** A replica that reads an intact row gets the minted key, nothing once it is revoked, and
      an error exactly when it lacks the envelope's secret. */
  lemma StoredKeyOfRow(replica: Replica, rows: KeyRows, keyId: string, minted: string)
    requires keyId in rows && RowOk(keyId, rows[keyId], minted)
    ensures var stored, row := GetStoredKey(replica, rows, keyId), rows[keyId];
            if row.revoked then stored == Ok(None)
            else if Holds(replica, row.encryptedKey.value)
            then stored == Ok(Some(StoredKey(minted, row.encryptedKey.value.version)))
            else stored.Error?
  {
  }

  lemma RewrappedContinues(replica: Replica, rows: KeyRows, keyId: string, minted: string)
    requires replica.Valid() && keyId in rows && RowOk(keyId, rows[keyId], minted)
    requires var stored := GetStoredKey(replica, rows, keyId); stored.Ok? && stored.value.Some?
    ensures var stored := GetStoredKey(replica, rows, keyId).value.value;
            var after := Rewrapped(rows, replica, keyId, stored);
            stored.key == minted && after.Keys == rows.Keys &&
            RowOk(keyId, after[keyId], minted) && Continues(rows[keyId], after[keyId]) && !after[keyId].revoked &&
            after[keyId].encryptedKey.value.version == Max(rows[keyId].encryptedKey.value.version, replica.current) &&
            (forall k :: k in rows && k != keyId ==> after[k] == rows[k])
  {
  }
}
