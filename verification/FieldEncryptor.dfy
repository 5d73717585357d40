/** Encrypting, decrypting and redacting fields of an event's data.

    The cipher is an ideal sealed box: it opens only under the key and the additional data it
    was sealed with, and then yields the plaintext (AES-GCM with additional data, section 7 of
    NIST SP 800-38D). */
module FieldEncryptor {
  import opened Options
  import opened FieldPaths
  import opened JsonTree
  import opened JsonErasure

  const MAX_KEY_VERSION := 0xffffffff

  datatype Context = Context(eventId: string, cryptoKeyId: string)

  /** fieldAad: what the ciphertext is bound to. */
  datatype Aad = Aad(context: Context, field: string, version: int)

  datatype Sealed = Sealed(key: string, aad: Aad, plaintext: Json)

  function Open(box: Sealed, key: string, aad: Aad): Option<Json> {
    if box.key == key && box.aad == aad then Some(box.plaintext) else None
  }

  datatype Entry = Entry(version: int, box: Sealed)

  datatype Encrypted = Encrypted(clean: Json, entries: map<string, Entry>)

  predicate ValidKeyVersion(version: int) {
    0 <= version <= MAX_KEY_VERSION
  }

  // ---- Encryption ----

  /** The fields that are there, in the order given. */
  function Present(data: Json, fields: seq<string>): seq<string> {
    if fields == [] then []
    else
      var last, before := fields[|fields| - 1], Present(data, fields[..|fields| - 1]);
      if Get(data, Split(last)).Some? then before + [last] else before
  }

  function Paths(fields: seq<string>): (paths: seq<Path>)
    ensures |paths| == |fields|
  {
    seq(|fields|, i requires 0 <= i < |fields| => Split(fields[i]))
  }

  /** The entry of every field that is there: its original value, sealed for this event,
      key, field and version. */
  function EntriesOf(data: Json, fields: seq<string>, key: string, version: int, context: Context): map<string, Entry> {
    map field | field in fields && Get(data, Split(field)).Some? ::
      Entry(version, Sealed(key, Aad(context, field, version), Get(data, Split(field)).value))
  }

  /** What encryptFields accepts: a valid version, valid paths apart from each other, and no
      field that names the length of an array (deleting which throws). */
  predicate Encryptable(data: Json, fields: seq<string>, version: int) {
    && ValidKeyVersion(version)
    && DistinctFieldPaths(fields)
    && forall i :: 0 <= i < |fields| && Get(data, Split(fields[i])).Some? ==> !NamesLength(data, Split(fields[i]))
  }

  lemma {:induction false} PresentFacts(data: Json, fields: seq<string>)
    ensures forall i :: 0 <= i < |Present(data, fields)| ==>
              Present(data, fields)[i] in fields && Get(data, Split(Present(data, fields)[i])).Some?
    ensures forall f :: f in fields && Get(data, Split(f)).Some? ==> f in Present(data, fields)
  {
    if fields != [] {
      PresentFacts(data, fields[..|fields| - 1]);
    }
  }

  lemma PresentSnoc(data: Json, fields: seq<string>, f: string)
    ensures Present(data, fields + [f]) ==
              if Get(data, Split(f)).Some? then Present(data, fields) + [f] else Present(data, fields)
  {
    assert (fields + [f])[..|fields|] == fields;
  }

  lemma PathsSnoc(fields: seq<string>, f: string)
    ensures Paths(fields + [f]) == Paths(fields) + [Split(f)]
  {
  }

  /** A field apart from the earlier ones is apart from those of them that are there. */
  lemma ApartFromPresent(data: Json, fields: seq<string>, f: string)
    requires DistinctFieldPaths(fields + [f])
    ensures ApartFromAll(Split(f), Paths(Present(data, fields)))
  {
    var before, all := Present(data, fields), fields + [f];
    PresentFacts(data, fields);
    forall k | 0 <= k < |before| ensures Apart(Split(before[k]), Split(f)) {
      var m :| 0 <= m < |fields| && fields[m] == before[k];
      assert all[m] == before[k] && all[|fields|] == f;
    }
  }

  lemma EncryptableInit(data: Json, fields: seq<string>, f: string, version: int)
    requires Encryptable(data, fields + [f], version)
    ensures Encryptable(data, fields, version)
    ensures Get(data, Split(f)).Some? ==> !NamesLength(data, Split(f))
  {
    var all := fields + [f];
    assert forall i :: 0 <= i < |fields| ==> all[i] == fields[i];
    assert all[|fields|] == f;
  }

  lemma {:induction false} PresentFamily(data: Json, fields: seq<string>, version: int)
    requires Encryptable(data, fields, version)
    ensures Family(data, Paths(Present(data, fields)))
  {
    if fields != [] {
      var init, last := fields[..|fields| - 1], fields[|fields| - 1];
      assert fields == init + [last];
      hide Encryptable, DistinctFieldPaths, Family, Present, NamesLength;
      EncryptableInit(data, init, last, version);
      PresentFamily(data, init, version);
      PresentSnoc(data, init, last);
      if Get(data, Split(last)).Some? {
        PresentReaches(data, Split(last));
        DistinctOf(data, fields, version);
        ApartFromPresent(data, init, last);
        PathsSnoc(Present(data, init), last);
        FamilySnoc(data, Paths(Present(data, init)), Split(last));
      }
    }
  }

  lemma DistinctOf(data: Json, fields: seq<string>, version: int)
    requires Encryptable(data, fields, version)
    ensures DistinctFieldPaths(fields)
  {
  }

  /** Removing the earlier fields has not changed what a later field sees. */
  lemma UntouchedSoFar(data: Json, fields: seq<string>, f: string, version: int)
    requires DistinctFieldPaths(fields + [f]) && Encryptable(data, fields, version)
    ensures var now := Erased(data, Paths(Present(data, fields)));
            Get(now, Split(f)) == Get(data, Split(f)) && NamesLength(now, Split(f)) == NamesLength(data, Split(f))
  {
    PresentFamily(data, fields, version);
    ApartFromPresent(data, fields, f);
    ErasedElsewhere(data, Paths(Present(data, fields)), Split(f));
  }

  lemma EntriesSnoc(data: Json, fields: seq<string>, f: string, key: string, version: int, context: Context)
    ensures var before, value := EntriesOf(data, fields, key, version, context), Get(data, Split(f));
            EntriesOf(data, fields + [f], key, version, context) ==
              if value.Some? then before[f := Entry(version, Sealed(key, Aad(context, f, version), value.value))] else before
  {
  }

  /** One field of the loop, as a change of the three specification values. */
  lemma EncryptStep(data: Json, fields: seq<string>, f: string, version: int)
    requires DistinctFieldPaths(fields + [f]) && Encryptable(data, fields, version)
    ensures var now, value := Erased(data, Paths(Present(data, fields))), Get(data, Split(f));
            Get(now, Split(f)) == value &&
            (value.Some? ==>
               (Remove(now, Split(f)).Some? <==> Encryptable(data, fields + [f], version)) &&
               (Remove(now, Split(f)).Some? ==>
                  Remove(now, Split(f)).value == Erased(data, Paths(Present(data, fields + [f]))))) &&
            (value.None? ==>
               Encryptable(data, fields + [f], version) && now == Erased(data, Paths(Present(data, fields + [f]))))
  {
    var now := Erased(data, Paths(Present(data, fields)));
    UntouchedSoFar(data, fields, f, version);
    PresentSnoc(data, fields, f);
    PathsSnoc(Present(data, fields), f);
    ErasedSnoc(data, Paths(Present(data, fields)), Split(f));
    EncryptableSnoc(data, fields, f, version);
    if Get(data, Split(f)).Some? {
      RemoveIsEdit(now, Split(f));
    }
  }

  lemma EncryptableSnoc(data: Json, fields: seq<string>, f: string, version: int)
    requires DistinctFieldPaths(fields + [f]) && Encryptable(data, fields, version)
    ensures Encryptable(data, fields + [f], version) <==> (Get(data, Split(f)).Some? ==> !NamesLength(data, Split(f)))
  {
    assert (fields + [f])[|fields|] == f;
  }

  lemma EncryptBase(data: Json, version: int)
    requires ValidKeyVersion(version)
    ensures Encryptable(data, [], version) && Erased(data, Paths(Present(data, []))) == data
  {
  }

  lemma EncryptLoopStep(data: Json, fields: seq<string>, i: nat, key: string, version: int, context: Context)
    requires DistinctFieldPaths(fields) && i < |fields| && Encryptable(data, fields[..i], version)
    ensures var f, now := fields[i], Erased(data, Paths(Present(data, fields[..i])));
            var value := Get(now, Split(f));
            (value.Some? ==>
               (Remove(now, Split(f)).Some? <==> Encryptable(data, fields[..i + 1], version)) &&
               (Remove(now, Split(f)).Some? ==>
                  Remove(now, Split(f)).value == Erased(data, Paths(Present(data, fields[..i + 1])))) &&
               EntriesOf(data, fields[..i + 1], key, version, context) ==
                 EntriesOf(data, fields[..i], key, version, context)
                   [f := Entry(version, Sealed(key, Aad(context, f, version), value.value))]) &&
            (value.None? ==>
               Encryptable(data, fields[..i + 1], version) &&
               now == Erased(data, Paths(Present(data, fields[..i + 1]))) &&
               EntriesOf(data, fields[..i + 1], key, version, context) == EntriesOf(data, fields[..i], key, version, context))
  {
    assert fields[..i + 1] == fields[..i] + [fields[i]];
    DistinctPrefix(fields, i + 1);
    hide Erased, Encryptable, EntriesOf, Present, Paths, DistinctFieldPaths;
    EncryptStep(data, fields[..i], fields[i], version);
    EntriesSnoc(data, fields[..i], fields[i], key, version, context);
  }

  lemma DistinctPrefix(fields: seq<string>, i: nat)
    requires i <= |fields| && DistinctFieldPaths(fields)
    ensures DistinctFieldPaths(fields[..i])
  {
  }

  lemma EncryptablePrefix(data: Json, fields: seq<string>, i: nat, version: int)
    requires i <= |fields| && Encryptable(data, fields, version)
    ensures Encryptable(data, fields[..i], version)
  {
  }

  /** encryptFields.  It succeeds exactly on Encryptable input; the clean tree is the data
      with the present fields erased and every entry seals that field's original value. */
  method EncryptFields(data: Json, fields: seq<string>, key: string, version: int, context: Context)
    returns (r: Result<Encrypted>)
    ensures r.Ok? <==> Encryptable(data, fields, version)
    ensures r.Ok? ==> r.value.clean == Erased(data, Paths(Present(data, fields)))
    ensures r.Ok? ==> r.value.entries == EntriesOf(data, fields, key, version, context)
  {
    hide Erased, Encryptable, EntriesOf, Present, Paths, DistinctFieldPaths, Remove, Get;
    if !ValidKeyVersion(version) {
      EncryptableImplies(data, fields, version);
      return Error("Invalid encrypted field version");
    }
    var distinct := AssertDistinctFieldPaths(fields);
    if !distinct {
      EncryptableImplies(data, fields, version);
      return Error("Encrypted field path is invalid or overlaps another path");
    }
    var cleanData, encryptedData := data, map[];
    EncryptBase(data, version);
    EntriesBase(data, key, version, context);
    for i := 0 to |fields|
      invariant Encryptable(data, fields[..i], version)
      invariant cleanData == Erased(data, Paths(Present(data, fields[..i])))
      invariant encryptedData == EntriesOf(data, fields[..i], key, version, context)
    {
      var field := fields[i];
      EncryptLoopStep(data, fields, i, key, version, context);
      var value := Get(cleanData, Split(field));
      if value.Some? {
        encryptedData := encryptedData[field := Entry(version, Sealed(key, Aad(context, field, version), value.value))];
        var removed := Remove(cleanData, Split(field));
        if removed.None? {
          if Encryptable(data, fields, version) {
            EncryptablePrefix(data, fields, i + 1, version);
          }
          return Error("Cannot delete property 'length' of [object Array]");
        }
        cleanData := removed.value;
      }
    }
    assert fields[..|fields|] == fields;
    r := Ok(Encrypted(cleanData, encryptedData));
  }

  lemma EncryptableImplies(data: Json, fields: seq<string>, version: int)
    ensures Encryptable(data, fields, version) ==> ValidKeyVersion(version) && DistinctFieldPaths(fields)
  {
  }

  lemma EntriesBase(data: Json, key: string, version: int, context: Context)
    ensures EntriesOf(data, [], key, version, context) == map[]
  {
  }
}
