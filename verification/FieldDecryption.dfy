/** Decrypting and redacting: writing the encrypted fields back, in whatever order JSONB
    returns them. */
module FieldDecryption {
  import opened Options
  import opened FieldPaths
  import opened JsonTree
  import opened JsonErasure
  import opened FieldEncryptor

  /** A listing of the entries, each field once: Object.entries of the stored column. */
  ghost predicate Enumerates(order: seq<string>, keys: set<string>) {
    && (forall f :: f in order <==> f in keys)
    && (forall i, k :: 0 <= i < k < |order| ==> order[i] != order[k])
  }

  /** The listed fields set one after the other; None when one of them throws. */
  function SetAll(js: ToLength, j: Json, order: seq<string>, values: map<string, Json>): Option<Json>
    requires forall f :: f in order ==> f in values
  {
    if order == [] then Some(j)
    else
      var last, before := order[|order| - 1], SetAll(js, j, order[..|order| - 1], values);
      if before.None? then None else Set(js, before.value, Split(last), values[last])
  }

  /** The entry opens for this event, key and field. */
  predicate Opens(field: string, entry: Entry, key: string, context: Context) {
    ValidFieldPath(field) && ValidKeyVersion(entry.version) &&
    Open(entry.box, key, Aad(context, field, entry.version)).Some?
  }

  function Plaintexts(entries: map<string, Entry>): (values: map<string, Json>)
    ensures values.Keys == entries.Keys
  {
    map f | f in entries :: entries[f].box.plaintext
  }

  lemma OpensWhen(entries: map<string, Entry>, field: string, key: string, context: Context)
    requires field in entries
    ensures var entry := entries[field];
            var value := Open(entry.box, key, Aad(context, field, entry.version));
            (Opens(field, entry, key, context) <==>
               ValidFieldPath(field) && ValidKeyVersion(entry.version) && value.Some?) &&
            field in Plaintexts(entries) && (value.Some? ==> value.value == Plaintexts(entries)[field])
  {
  }

  lemma SetAllStart(js: ToLength, j: Json, values: map<string, Json>)
    ensures SetAll(js, j, [], values) == Some(j)
  {
  }

  lemma SetAllStep(js: ToLength, j: Json, order: seq<string>, i: nat, values: map<string, Json>)
    requires i < |order| && forall f :: f in order ==> f in values
    ensures var before := SetAll(js, j, order[..i], values);
            SetAll(js, j, order[..i + 1], values) ==
              if before.None? then None else Set(js, before.value, Split(order[i]), values[order[i]])
  {
    assert order[..i + 1][..i] == order[..i];
  }

  /** decryptFields: the listed fields written back if every one of them opens and can be set. */
  method DecryptFields(js: ToLength, cleanData: Json, entries: map<string, Entry>, order: seq<string>, key: string,
                       context: Context)
    returns (r: Result<Json>)
    requires Enumerates(order, entries.Keys)
    ensures r.Ok? <==> (forall f :: f in entries ==> Opens(f, entries[f], key, context)) &&
                       SetAll(js, cleanData, order, Plaintexts(entries)).Some?
    ensures r.Ok? ==> Some(r.value) == SetAll(js, cleanData, order, Plaintexts(entries))
  {
    hide Set, SetAll, Split, ValidFieldPath, ValidKeyVersion, Open, Opens, Plaintexts;
    var result := cleanData;
    SetAllStart(js, cleanData, Plaintexts(entries));
    for i := 0 to |order|
      invariant forall k :: 0 <= k < i ==> Opens(order[k], entries[order[k]], key, context)
      invariant Some(result) == SetAll(js, cleanData, order[..i], Plaintexts(entries))
    {
      var field := order[i];
      var entry := entries[field];
      OpensWhen(entries, field, key, context);
      SetAllStep(js, cleanData, order, i, Plaintexts(entries));
      if !ValidFieldPath(field) {
        return Error("Invalid encrypted field path");
      }
      if !ValidKeyVersion(entry.version) {
        return Error("Invalid encrypted field version");
      }
      var value := Open(entry.box, key, Aad(context, field, entry.version));
      if value.None? {
        return Error("Unsupported state or unable to authenticate data");
      }
      var updated := Set(js, result, Split(field), value.value);
      if updated.None? {
        SetAllThrows(js, cleanData, order, i + 1, Plaintexts(entries));
        return Error("Invalid array length");
      }
      result := updated.value;
    }
    assert order[..|order|] == order;
    r := Ok(result);
  }

  function Nulls(keys: set<string>): (values: map<string, Json>)
    ensures values.Keys == keys
  {
    map f | f in keys :: Null
  }

  /** redactFields. */
  method RedactFields(js: ToLength, cleanData: Json, entries: map<string, Entry>, order: seq<string>)
    returns (r: Result<Json>)
    requires Enumerates(order, entries.Keys)
    ensures r.Ok? <==> (forall f :: f in entries ==> ValidFieldPath(f)) &&
                       SetAll(js, cleanData, order, Nulls(entries.Keys)).Some?
    ensures r.Ok? ==> Some(r.value) == SetAll(js, cleanData, order, Nulls(entries.Keys))
  {
    hide Set, SetAll, Split, ValidFieldPath;
    var result := cleanData;
    SetAllStart(js, cleanData, Nulls(entries.Keys));
    for i := 0 to |order|
      invariant forall k :: 0 <= k < i ==> ValidFieldPath(order[k])
      invariant Some(result) == SetAll(js, cleanData, order[..i], Nulls(entries.Keys))
    {
      var field := order[i];
      SetAllStep(js, cleanData, order, i, Nulls(entries.Keys));
      if !ValidFieldPath(field) {
        return Error("Invalid encrypted field path");
      }
      var updated := Set(js, result, Split(field), Null);
      if updated.None? {
        SetAllThrows(js, cleanData, order, i + 1, Nulls(entries.Keys));
        return Error("Invalid array length");
      }
      result := updated.value;
    }
    assert order[..|order|] == order;
    r := Ok(result);
  }

  /** Once a field throws, nothing comes of the rest. */
  lemma {:induction false} SetAllThrows(js: ToLength, j: Json, order: seq<string>, i: nat, values: map<string, Json>)
    requires i <= |order| && (forall f :: f in order ==> f in values) && SetAll(js, j, order[..i], values).None?
    ensures SetAll(js, j, order, values).None?
    decreases |order| - i
  {
    if i < |order| {
      assert order[..i + 1][..i] == order[..i];
      SetAllThrows(js, j, order, i + 1, values);
    } else {
      assert order[..i] == order;
    }
  }

  // ---- Writing erased fields back ----

  /** A write at a path that leads somewhere. */
  function Wrote(j: Json, p: Path, value: Json): Json {
    if p != [] && Reaches(j, p) then EditAt(j, p, Write(value)) else j
  }

  lemma WroteIsEdit(j: Json, p: Path, value: Json)
    requires p != [] && Reaches(j, p)
    ensures Wrote(j, p, value) == EditAt(j, p, Write(value))
  {
  }

  /** The listed fields written one after the other. */
  function Filled(j: Json, order: seq<string>, values: map<string, Json>): Json
    requires forall f :: f in order ==> f in values
  {
    if order == [] then j
    else
      var last := order[|order| - 1];
      Wrote(Filled(j, order[..|order| - 1], values), Split(last), values[last])
  }

  lemma PathsWithout(fields: seq<string>, i: nat)
    requires i < |fields|
    ensures Paths(Without(fields, i)) == Without(Paths(fields), i)
  {
  }

  /** Different positions of a family hold different fields. */
  lemma FamilyDistinct(j: Json, fields: seq<string>)
    requires Family(j, Paths(fields))
    ensures forall i, k :: 0 <= i < k < |fields| ==> fields[i] != fields[k]
  {
    forall i, k | 0 <= i < k < |fields| ensures fields[i] != fields[k] {
      assert Apart(Paths(fields)[i], Paths(fields)[k]);
    }
  }

  lemma WithoutMembers(fields: seq<string>, i: nat)
    requires i < |fields|
    requires forall i, k :: 0 <= i < k < |fields| ==> fields[i] != fields[k]
    ensures forall f :: f in Without(fields, i) <==> f in fields && f != fields[i]
  {
    var w := Without(fields, i);
    forall f | f in fields && f != fields[i] ensures f in w {
      var k :| 0 <= k < |fields| && fields[k] == f;
      assert w[if k < i then k else k - 1] == f;
    }
  }

  /** One field written over an erased family: the same write on the data, the rest erased. */
  lemma FillStep(js: ToLength, data: Json, left: seq<string>, f: string, value: Json) returns (rest: seq<string>)
    requires Family(data, Paths(left)) && f in left
    ensures Set(js, Erased(data, Paths(left)), Split(f), value) == Some(Wrote(Erased(data, Paths(left)), Split(f), value))
    ensures Wrote(Erased(data, Paths(left)), Split(f), value) == Erased(Wrote(data, Split(f), value), Paths(rest))
    ensures Family(Wrote(data, Split(f), value), Paths(rest))
    ensures forall g :: g in rest <==> g in left && g != f
  {
    var i :| 0 <= i < |left| && left[i] == f;
    rest := Without(left, i);
    PathsWithout(left, i);
    FamilyDistinct(data, left);
    WithoutMembers(left, i);
    hide Erased, Without;
    assert Paths(left)[i] == Split(f);
    WriteErased(data, Paths(left), i, value);
    FamilyAfterWrite(data, Paths(left), i, value);
    SetIsEdit(js, Erased(data, Paths(left)), Split(f), value);
    WroteIsEdit(Erased(data, Paths(left)), Split(f), value);
    WroteIsEdit(data, Split(f), value);
  }

  /** Setting erased fields in any order is filling them on the data itself. */
  lemma {:induction false} FillErased(js: ToLength, data: Json, present: seq<string>, order: seq<string>, values: map<string, Json>)
    returns (left: seq<string>)
    requires Family(data, Paths(present))
    requires forall f :: f in order ==> f in present && f in values
    requires forall i, k :: 0 <= i < k < |order| ==> order[i] != order[k]
    ensures SetAll(js, Erased(data, Paths(present)), order, values) == Some(Erased(Filled(data, order, values), Paths(left)))
    ensures Family(Filled(data, order, values), Paths(left))
    ensures forall f :: f in left <==> f in present && f !in order
  {
    hide Erased, Family, Wrote, Split, Paths;
    if order == [] {
      left := present;
    } else {
      var init, last := order[..|order| - 1], order[|order| - 1];
      var before := FillErased(js, data, present, init, values);
      left := FillStep(js, Filled(data, init, values), before, last, values[last]);
    }
  }

  lemma NonEmptyHasMember(s: seq<string>)
    ensures s != [] ==> exists f :: f in s
  {
    if s != [] {
      assert s[0] in s;
    }
  }

  lemma FillAllErased(js: ToLength, data: Json, present: seq<string>, order: seq<string>, values: map<string, Json>)
    requires Family(data, Paths(present))
    requires forall f :: f in order ==> f in values
    requires Enumerates(order, set f | f in present)
    ensures SetAll(js, Erased(data, Paths(present)), order, values) == Some(Filled(data, order, values))
  {
    var left := FillErased(js, data, present, order, values);
    NonEmptyHasMember(left);
    assert Paths([]) == [];
  }

  /** A listing of a family's fields is a family. */
  lemma FamilyOf(data: Json, present: seq<string>, order: seq<string>)
    requires Family(data, Paths(present)) && Enumerates(order, set f | f in present)
    ensures Family(data, Paths(order))
  {
    forall i | 0 <= i < |order| ensures Split(order[i]) != [] && Reaches(data, Split(order[i])) {
      assert order[i] in order;
      var k :| 0 <= k < |present| && present[k] == order[i];
      assert Paths(present)[k] == Split(order[i]);
    }
    forall i, k | 0 <= i < k < |order| ensures Apart(Split(order[i]), Split(order[k])) {
      assert order[i] in order && order[k] in order;
      var m :| 0 <= m < |present| && present[m] == order[i];
      var n :| 0 <= n < |present| && present[n] == order[k];
      assert m < n ==> Apart(Paths(present)[m], Paths(present)[n]);
      assert n < m ==> Apart(Paths(present)[n], Paths(present)[m]);
    }
  }

  lemma FamilyPrefix(data: Json, order: seq<string>)
    requires Family(data, Paths(order)) && order != []
    ensures Family(data, Paths(order[..|order| - 1])) && Reaches(data, Split(order[|order| - 1]))
    ensures ApartFromAll(Split(order[|order| - 1]), Paths(order[..|order| - 1]))
  {
    var ps, init := Paths(order), order[..|order| - 1];
    assert Paths(init) == ps[..|ps| - 1];
    FamilyInit(data, ps);
    assert ps[|ps| - 1] == Split(order[|order| - 1]);
  }

  /** Filling is invisible at a path apart from the fields. */
  lemma {:induction false} FilledElsewhere(data: Json, order: seq<string>, values: map<string, Json>, q: Path)
    requires Family(data, Paths(order)) && (forall f :: f in order ==> f in values)
    requires q != [] && ApartFromAll(q, Paths(order))
    ensures Get(Filled(data, order, values), q) == Get(data, q)
    ensures Reaches(Filled(data, order, values), q) == Reaches(data, q)
  {
    if order != [] {
      var init, last := order[..|order| - 1], order[|order| - 1];
      FamilyPrefix(data, order);
      assert Paths(order)[|order| - 1] == Split(last);
      assert Paths(init) == Paths(order)[..|order| - 1];
      hide Family;
      FilledElsewhere(data, init, values, q);
      FilledElsewhere(data, init, values, Split(last));
      var now := Filled(data, init, values);
      WroteIsEdit(now, Split(last), values[last]);
      EditElsewhere(now, Split(last), Write(values[last]), q);
    }
  }

  /** After filling, every listed field reads as its value. */
  lemma {:induction false} FilledHere(data: Json, order: seq<string>, values: map<string, Json>, i: nat)
    requires Family(data, Paths(order)) && (forall f :: f in order ==> f in values) && i < |order|
    ensures Get(Filled(data, order, values), Split(order[i])) == Some(values[order[i]])
  {
    var init, last := order[..|order| - 1], order[|order| - 1];
    FamilyPrefix(data, order);
    FilledElsewhere(data, init, values, Split(last));
    var now := Filled(data, init, values);
    WroteIsEdit(now, Split(last), values[last]);
    if i == |order| - 1 {
      WriteOver(now, Split(last), Write(values[last]), values[last]);
    } else {
      FilledHere(data, init, values, i);
      assert Apart(Paths(init)[i], Split(last));
      EditElsewhere(now, Split(last), Write(values[last]), Split(order[i]));
    }
  }

  /** Filling with the values already there changes nothing. */
  lemma {:induction false} FilledBack(data: Json, order: seq<string>, values: map<string, Json>)
    requires Family(data, Paths(order))
    requires forall f :: f in order ==> f in values && Get(data, Split(f)) == Some(values[f])
    ensures Filled(data, order, values) == data
  {
    if order != [] {
      var init, last := order[..|order| - 1], order[|order| - 1];
      FamilyPrefix(data, order);
      FilledBack(data, init, values);
      WroteIsEdit(data, Split(last), values[last]);
      WriteBack(data, Split(last), values[last]);
    }
  }

  // ---- The order of the entries does not matter ----

  /** A field's write can be made last. */
  lemma {:induction false} WriteLast(data: Json, order: seq<string>, values: map<string, Json>, i: nat)
    requires Family(data, Paths(order)) && (forall f :: f in order ==> f in values) && i < |order|
    ensures Filled(data, order, values) ==
              Wrote(Filled(data, Without(order, i), values), Split(order[i]), values[order[i]])
    ensures Family(data, Paths(Without(order, i)))
  {
    hide Family, ApartFromAll, Wrote, Paths, Reaches, Split;
    PathsWithout(order, i);
    FamilyWithout(data, Paths(order), i);
    var init, last := order[..|order| - 1], order[|order| - 1];
    if i == |order| - 1 {
      assert Without(order, i) == init;
    } else {
      FamilyPrefix(data, order);
      WriteLast(data, init, values, i);
      var without := Without(init, i);
      assert Without(order, i)[..|order| - 2] == without && Without(order, i)[|order| - 2] == last;
      SetsCommute(data, without, values, order[i], last) by {
        SplitApart(data, order, i);
      }
    }
  }

  lemma SplitApart(data: Json, order: seq<string>, i: nat)
    requires Family(data, Paths(order)) && i < |order| - 1
    ensures var init := order[..|order| - 1];
            var rest := Without(init, i);
            Family(data, Paths(rest)) && Reaches(data, Split(order[i])) && Reaches(data, Split(order[|order| - 1])) &&
            ApartFromAll(Split(order[i]), Paths(rest)) && ApartFromAll(Split(order[|order| - 1]), Paths(rest)) &&
            Apart(Split(order[i]), Split(order[|order| - 1]))
  {
    var init := order[..|order| - 1];
    FamilyPrefix(data, order);
    PathsWithout(init, i);
    FamilyWithout(data, Paths(init), i);
    assert Paths(init)[i] == Split(order[i]);
    var rest := Without(init, i);
    forall k | 0 <= k < |rest| ensures Apart(Paths(rest)[k], Split(order[|order| - 1])) {
      assert rest[k] == init[if k < i then k else k + 1];
      assert Paths(rest)[k] == Paths(init)[if k < i then k else k + 1];
    }
  }

  lemma SetsCommute(data: Json, order: seq<string>, values: map<string, Json>, f: string, g: string)
    requires Family(data, Paths(order)) && (forall h :: h in order ==> h in values) && f in values && g in values
    requires Reaches(data, Split(f)) && Reaches(data, Split(g)) && Apart(Split(f), Split(g))
    requires ApartFromAll(Split(f), Paths(order)) && ApartFromAll(Split(g), Paths(order))
    ensures var now := Filled(data, order, values);
            Wrote(Wrote(now, Split(f), values[f]), Split(g), values[g]) ==
              Wrote(Wrote(now, Split(g), values[g]), Split(f), values[f])
  {
    hide Family, ApartFromAll;
    FilledElsewhere(data, order, values, Split(f));
    FilledElsewhere(data, order, values, Split(g));
    var now := Filled(data, order, values);
    EditsCommute(now, Split(f), Write(values[f]), Split(g), Write(values[g]));
    WroteIsEdit(now, Split(f), values[f]);
    WroteIsEdit(now, Split(g), values[g]);
    WroteIsEdit(EditAt(now, Split(f), Write(values[f])), Split(g), values[g]);
    WroteIsEdit(EditAt(now, Split(g), Write(values[g])), Split(f), values[f]);
  }

  /** Two listings of the same fields fill in the same tree. */
  lemma {:induction false} FilledAnyOrder(data: Json, order: seq<string>, other: seq<string>, values: map<string, Json>)
    requires Family(data, Paths(order)) && Family(data, Paths(other))
    requires forall f :: f in order ==> f in values
    requires forall f :: f in order <==> f in other
    ensures Filled(data, order, values) == Filled(data, other, values)
  {
    if order == [] {
      NonEmptyHasMember(other);
    } else {
      var init, last := order[..|order| - 1], order[|order| - 1];
      assert last in order;
      var i :| 0 <= i < |other| && other[i] == last;
      WriteLast(data, other, values, i);
      FamilyPrefix(data, order);
      FamilyDistinct(data, order);
      FamilyDistinct(data, other);
      assert Without(order, |order| - 1) == init;
      WithoutMembers(order, |order| - 1);
      WithoutMembers(other, i);
      FilledAnyOrder(data, init, Without(other, i), values);
    }
  }

  // ---- What encryption, decryption and redaction mean together ----

  lemma EntryKeys(data: Json, fields: seq<string>, key: string, version: int, context: Context)
    ensures EntriesOf(data, fields, key, version, context).Keys == set f | f in Present(data, fields)
  {
    PresentFacts(data, fields);
  }

  lemma ListingOfPresent(data: Json, fields: seq<string>, key: string, version: int, context: Context, order: seq<string>)
    requires Encryptable(data, fields, version)
    requires Enumerates(order, EntriesOf(data, fields, key, version, context).Keys)
    ensures Enumerates(order, set f | f in Present(data, fields))
    ensures Family(data, Paths(Present(data, fields))) && Family(data, Paths(order))
  {
    EntryKeys(data, fields, key, version, context);
    PresentFamily(data, fields, version);
    FamilyOf(data, Present(data, fields), order);
  }

  /** Round trip: whatever the tree, the accepted fields and the order in which the entries come
      back, every entry opens and decrypting gives the original data. */
  lemma RoundTrip(js: ToLength, data: Json, fields: seq<string>, key: string, version: int, context: Context,
                  order: seq<string>)
    requires Encryptable(data, fields, version)
    requires Enumerates(order, EntriesOf(data, fields, key, version, context).Keys)
    ensures var entries := EntriesOf(data, fields, key, version, context);
            (forall f :: f in entries ==> Opens(f, entries[f], key, context)) &&
            SetAll(js, Erased(data, Paths(Present(data, fields))), order, Plaintexts(entries)) == Some(data)
  {
    var entries := EntriesOf(data, fields, key, version, context);
    ListingOfPresent(data, fields, key, version, context, order);
    forall f | f in entries ensures Opens(f, entries[f], key, context) {
      var i :| 0 <= i < |fields| && fields[i] == f;
    }
    FillAllErased(js, data, Present(data, fields), order, Plaintexts(entries));
    FilledBack(data, order, Plaintexts(entries));
  }

  /** No plaintext is left: in the clean tree nothing is found at any encrypted path, and every
      path apart from them is as it was. */
  lemma NothingLeftBehind(data: Json, fields: seq<string>, key: string, version: int, context: Context, f: string)
    requires Encryptable(data, fields, version) && f in EntriesOf(data, fields, key, version, context)
    ensures Gone(Get(Erased(data, Paths(Present(data, fields))), Split(f)))
    ensures forall q: Path :: q != [] && ApartFromAll(q, Paths(Present(data, fields))) ==>
              Get(Erased(data, Paths(Present(data, fields))), q) == Get(data, q)
  {
    var present := Present(data, fields);
    PresentFacts(data, fields);
    PresentFamily(data, fields, version);
    assert f in present;
    var i :| 0 <= i < |present| && present[i] == f;
    hide Family, ApartFromAll, Get, Erased, Present, Encryptable;
    ErasedHere(data, Paths(present), i);
    forall q: Path | q != [] && ApartFromAll(q, Paths(present)) ensures Get(Erased(data, Paths(present)), q) == Get(data, q) {
      ErasedElsewhere(data, Paths(present), q);
    }
  }

  /** An entry opens only under the key and for the event, key id, field and version it was
      sealed for: anything exchanged makes decryptFields fail. */
  lemma OpensOnlyAsSealed(data: Json, fields: seq<string>, key: string, version: int, context: Context, sealedAs: string,
                          field: string, storedVersion: int, otherKey: string, otherContext: Context)
    requires Encryptable(data, fields, version) && sealedAs in EntriesOf(data, fields, key, version, context)
    ensures var entry := EntriesOf(data, fields, key, version, context)[sealedAs];
            Opens(field, Entry(storedVersion, entry.box), otherKey, otherContext) <==>
              field == sealedAs && storedVersion == version && otherKey == key &&
              otherContext.eventId == context.eventId && otherContext.cryptoKeyId == context.cryptoKeyId
  {
    var i :| 0 <= i < |fields| && fields[i] == sealedAs;
  }

  /** Redaction: the stored clean tree with nulls filled in is the original tree with exactly
      the encrypted fields null, in whatever order the entries come back. */
  lemma Redaction(js: ToLength, data: Json, fields: seq<string>, key: string, version: int, context: Context,
                  order: seq<string>)
    requires Encryptable(data, fields, version)
    requires Enumerates(order, EntriesOf(data, fields, key, version, context).Keys)
    ensures var keys := EntriesOf(data, fields, key, version, context).Keys;
            var redacted := Filled(data, order, Nulls(keys));
            (forall f :: f in keys ==> ValidFieldPath(f)) &&
            SetAll(js, Erased(data, Paths(Present(data, fields))), order, Nulls(keys)) == Some(redacted) &&
            (forall f :: f in keys ==> Get(redacted, Split(f)) == Some(Null)) &&
            (forall q: Path :: q != [] && ApartFromAll(q, Paths(order)) ==> Get(redacted, q) == Get(data, q))
  {
    var keys := EntriesOf(data, fields, key, version, context).Keys;
    ListingOfPresent(data, fields, key, version, context, order);
    FillAllErased(js, data, Present(data, fields), order, Nulls(keys));
    forall f | f in keys ensures ValidFieldPath(f) {
      var i :| 0 <= i < |fields| && fields[i] == f;
    }
    forall f | f in keys ensures Get(Filled(data, order, Nulls(keys)), Split(f)) == Some(Null) {
      assert f in order;
      var i :| 0 <= i < |order| && order[i] == f;
      FilledHere(data, order, Nulls(keys), i);
    }
    forall q: Path | q != [] && ApartFromAll(q, Paths(order))
      ensures Get(Filled(data, order, Nulls(keys)), q) == Get(data, q)
    {
      FilledElsewhere(data, order, Nulls(keys), q);
    }
  }

  /** Redaction gives one tree however the entries are ordered. */
  lemma RedactionAnyOrder(js: ToLength, data: Json, fields: seq<string>, key: string, version: int, context: Context,
                          order: seq<string>, other: seq<string>)
    requires Encryptable(data, fields, version)
    requires Enumerates(order, EntriesOf(data, fields, key, version, context).Keys)
    requires Enumerates(other, EntriesOf(data, fields, key, version, context).Keys)
    ensures var clean, keys := Erased(data, Paths(Present(data, fields))), EntriesOf(data, fields, key, version, context).Keys;
            SetAll(js, clean, order, Nulls(keys)) == SetAll(js, clean, other, Nulls(keys))
  {
    var keys := EntriesOf(data, fields, key, version, context).Keys;
    ListingOfPresent(data, fields, key, version, context, order);
    ListingOfPresent(data, fields, key, version, context, other);
    FillAllErased(js, data, Present(data, fields), order, Nulls(keys));
    FillAllErased(js, data, Present(data, fields), other, Nulls(keys));
    FilledAnyOrder(data, order, other, Nulls(keys));
  }

  /** A valid, distinct field list that encryptFields refuses: the length of an array. */
  lemma ArrayLengthRefused()
    ensures var data, fields := Obj(map["a" := Arr([], map[])]), ["a.length"];
            DistinctFieldPaths(fields) && ValidKeyVersion(0) && !Encryptable(data, fields, 0)
  {
    SplitDotted("a", "length");
    assert "a" + "." + "length" == "a.length";
    hide Split, Get, NamesLength, Encryptable, DistinctFieldPaths;
    OneField("a.length");
    LengthIsThere();
    RefusedFor(Obj(map["a" := Arr([], map[])]), ["a.length"], 0, 0);
  }

  lemma OneField(field: string)
    requires ValidFieldPath(field)
    ensures DistinctFieldPaths([field])
  {
  }

  lemma LengthIsThere()
    ensures var data, path := Obj(map["a" := Arr([], map[])]), ["a", "length"];
            Get(data, path).Some? && NamesLength(data, path)
  {
    var data, path := Obj(map["a" := Arr([], map[])]), ["a", "length"];
    assert Own(data, "a") == Some(Arr([], map[]));
    var below := path[1..];
    assert below == ["length"] && below[1..] == [];
    assert Get(Arr([], map[]), below).Some? && NamesLength(Arr([], map[]), below);
  }

  lemma RefusedFor(data: Json, fields: seq<string>, version: int, i: nat)
    requires i < |fields| && Get(data, Split(fields[i])).Some? && NamesLength(data, Split(fields[i]))
    ensures !Encryptable(data, fields, version)
  {
  }

  predicate Dotless(s: string) {
    forall i :: 0 <= i < |s| ==> s[i] != '.'
  }

  lemma {:induction false} SplitDotless(s: string)
    requires Dotless(s)
    ensures Split(s) == [s]
  {
    if s != "" {
      SplitDotless(s[1..]);
      assert [s[0]] + s[1..] == s;
    }
  }

  lemma {:induction false} SplitDotted(a: string, b: string)
    requires Dotless(a) && Dotless(b)
    ensures Split(a + "." + b) == [a, b]
  {
    var s := a + "." + b;
    SplitDotless(b);
    if a == "" {
      assert s[1..] == b && s[0] == '.';
    } else {
      SplitDotted(a[1..], b);
      assert s[1..] == a[1..] + "." + b;
      assert [a[0]] + a[1..] == a;
    }
  }
}
