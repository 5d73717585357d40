/** JSON trees and the three path operations of the field encryptor.

    The encryptor works on a tree it has just produced with JSON.parse(JSON.stringify(...)),
    which no one else refers to, and mutates it through a pointer that walks down from the
    root; the functions here give the tree the root denotes after each operation. */
module JsonTree {
  import opened Options
  import opened Decimals
  import opened FieldPaths

  /** A value as JavaScript holds it.  The extras of an array are its properties other than
      elements and length: JSON.parse makes none, and JSON.stringify leaves them out. */
  datatype Json =
    | Null
    | Bool(b: bool)
    | Number(literal: string)
    | Text(s: string)
    | Arr(items: seq<Json>, extras: map<string, Json>)
    | Obj(fields: map<string, Json>)

  const MAX_ARRAY_LENGTH := 0xffffffff

  /** The length an array gets when the value is assigned to it; None stands for the RangeError.
      JavaScript's conversion of values to numbers is left open. */
  type ToLength = Json -> Option<nat>

  /** typeof x === "object" && x !== null. */
  predicate IsObject(j: Json) {
    j.Arr? || j.Obj?
  }

  /** The array index a property key denotes. */
  function Index(key: string): (index: Option<nat>)
    ensures index.Some? ==> index.value < MAX_ARRAY_LENGTH && Decimal(index.value) == key
  {
    ParsedDecimal(key);
    var n := ParseDecimal(key);
    if n.Some? && n.value < MAX_ARRAY_LENGTH then n else None
  }

  /** The element of an array of length n that a key denotes. */
  function Slot(key: string, n: nat): (slot: Option<nat>)
    ensures slot.Some? ==> slot.value < n && Decimal(slot.value) == key
  {
    if Index(key).Some? && Index(key).value < n then Index(key) else None
  }

  /** A key of an array that is neither an index nor its length. */
  predicate IsExtra(key: string) {
    Index(key).None? && key != "length"
  }

  /** current[key] when hasOwnProperty(key); an array also owns its length. */
  function Own(j: Json, key: string): Option<Json> {
    match j
    case Obj(fields) => if key in fields then Some(fields[key]) else None
    case Arr(items, extras) =>
      var slot := Slot(key, |items|);
      if slot.Some? then Some(items[slot.value])
      else if key == "length" then Some(Number(Decimal(|items|)))
      else if IsExtra(key) && key in extras then Some(extras[key]) else None
    case _ => None
  }

  /** A property can be written or deleted directly under j without growing or cutting it. */
  predicate Editable(j: Json, key: string) {
    j.Obj? || (j.Arr? && (Slot(key, |j.items|).Some? || IsExtra(key)))
  }

  /** current[key] = value in such a place. */
  function Put(j: Json, key: string, value: Json): Json
    requires Editable(j, key)
  {
    match j
    case Obj(fields) => Obj(fields[key := value])
    case Arr(items, extras) =>
      var slot := Slot(key, |items|);
      if slot.Some? then Arr(items[slot.value := value], extras) else Arr(items, extras[key := value])
  }

  function Holes(n: nat): seq<Json> {
    seq(n, i => Null)
  }

  /** The elements after length = n: cut off, or followed by holes, which read as null. */
  function Resized(items: seq<Json>, n: nat): seq<Json> {
    if n <= |items| then items[..n] else items + Holes(n - |items|)
  }

  /** current[key] = value: an index beyond the end grows an array, a new length cuts or grows
      it, and a value that is no length throws. */
  function Assign(js: ToLength, j: Json, key: string, value: Json): Option<Json> {
    if Editable(j, key) then Some(Put(j, key, value))
    else if !j.Arr? then Some(j)
    else if Index(key).Some? then Some(Arr(Resized(j.items, Index(key).value) + [value], j.extras))
    else
      var n := js(value);
      if n.None? || n.value > MAX_ARRAY_LENGTH then None else Some(Arr(Resized(j.items, n.value), j.extras))
  }

  /** delete current[key]: the hole it leaves in an array is stored as null; an array's length
      cannot be deleted, which throws. */
  function Delete(j: Json, key: string): Option<Json> {
    match j
    case Obj(fields) => Some(Obj(fields - {key}))
    case Arr(items, extras) =>
      var slot := Slot(key, |items|);
      if slot.Some? then Some(Arr(items[slot.value := Null], extras))
      else if key == "length" then None
      else if IsExtra(key) then Some(Arr(items, extras - {key})) else Some(j)
    case _ => Some(j)
  }

  /** getNestedField. */
  function Get(j: Json, path: Path): Option<Json>
    decreases |path|
  {
    if path == [] then Some(j)
    else
      var child := Own(j, path[0]);
      if child.None? then None else Get(child.value, path[1..])
  }

  /** setNestedField: objects missing on the way down are created; an object is no length. */
  function Set(js: ToLength, j: Json, path: Path, value: Json): Option<Json>
    requires path != []
    decreases |path|
  {
    if |path| == 1 then Assign(js, j, path[0], value)
    else if j.Arr? && path[0] == "length" then None
    else
      var child := Own(j, path[0]);
      var below := Set(js, if child.Some? && IsObject(child.value) then child.value else Obj(map[]), path[1..], value);
      if below.None? then None else Assign(js, j, path[0], below.value)
  }

  /** removeNestedField, called on a path that is there; None when the delete throws. */
  function Remove(j: Json, path: Path): Option<Json>
    requires path != [] && Get(j, path).Some?
  {
    if |path| == 1 then Delete(j, path[0])
    else
      var below := Remove(Own(j, path[0]).value, path[1..]);
      if below.None? then None else if Editable(j, path[0]) then Some(Put(j, path[0], below.value)) else Some(j)
  }

  // ---- Both operations as edits at a path that leads somewhere ----

  datatype Edit = Write(value: Json) | Erase

  /** Every step of the path but the last is an own object, and the last key can be edited. */
  predicate Reaches(j: Json, path: Path)
    requires path != []
  {
    Editable(j, path[0]) &&
    (|path| > 1 ==>
       Own(j, path[0]).Some? && IsObject(Own(j, path[0]).value) && Reaches(Own(j, path[0]).value, path[1..]))
  }

  function EditKey(j: Json, key: string, e: Edit): Json
    requires Editable(j, key)
  {
    match e
    case Write(value) => Put(j, key, value)
    case Erase => Delete(j, key).value
  }

  function EditAt(j: Json, path: Path, e: Edit): Json
    requires path != [] && Reaches(j, path)
  {
    if |path| == 1 then EditKey(j, path[0], e)
    else EditKey(j, path[0], Write(EditAt(Own(j, path[0]).value, path[1..], e)))
  }

  /** The path names the length of an array. */
  predicate NamesLength(j: Json, path: Path)
    requires path != []
  {
    if |path| == 1 then j.Arr? && path[0] == "length"
    else
      var child := Own(j, path[0]);
      child.Some? && IsObject(child.value) && NamesLength(child.value, path[1..])
  }

  /** "length" is no index. */
  lemma LengthIsNoIndex()
    ensures Index("length").None?
  {
    assert Digit("length"[|"length"| - 1]).None?;
  }

  lemma {:induction false} SetIsEdit(js: ToLength, j: Json, path: Path, value: Json)
    requires path != [] && Reaches(j, path)
    ensures Set(js, j, path, value) == Some(EditAt(j, path, Write(value)))
  {
    LengthIsNoIndex();
    if |path| > 1 {
      SetIsEdit(js, Own(j, path[0]).value, path[1..], value);
    }
  }

  /** A path that is there is editable, or names an array's length. */
  lemma {:induction false} PresentReaches(j: Json, path: Path)
    requires path != [] && Get(j, path).Some?
    ensures Reaches(j, path) <==> !NamesLength(j, path)
  {
    if |path| > 1 {
      assert Get(Own(j, path[0]).value, path[1..]).Some?;
      PresentReaches(Own(j, path[0]).value, path[1..]);
    }
  }

  /** Removing throws exactly on an array's length, and is an edit otherwise. */
  lemma {:induction false} RemoveIsEdit(j: Json, path: Path)
    requires path != [] && Get(j, path).Some?
    ensures Remove(j, path).Some? <==> !NamesLength(j, path)
    ensures Remove(j, path).Some? ==> Reaches(j, path) && Remove(j, path).value == EditAt(j, path, Erase)
  {
    PresentReaches(j, path);
    if |path| > 1 {
      RemoveIsEdit(Own(j, path[0]).value, path[1..]);
    }
  }

  // ---- Laws of edits ----

  /** An edit under one key does not touch another key. */
  lemma EditKeyElsewhere(j: Json, key: string, e: Edit, other: string)
    requires Editable(j, key) && key != other
    ensures Own(EditKey(j, key, e), other) == Own(j, other)
    ensures Editable(EditKey(j, key, e), other) == Editable(j, other)
    ensures EditKey(j, key, e).Arr? == j.Arr? && (j.Arr? ==> |EditKey(j, key, e).items| == |j.items|)
  {
  }

  lemma EditKeyHere(j: Json, key: string, value: Json)
    requires Editable(j, key)
    ensures Own(EditKey(j, key, Write(value)), key) == Some(value)
    ensures forall k :: Editable(EditKey(j, key, Write(value)), k) == Editable(j, k)
    ensures EditKey(j, key, Write(value)).Arr? == j.Arr?
    ensures forall e: Edit :: EditKey(EditKey(j, key, Write(value)), key, e) == EditKey(j, key, e)
    ensures Own(j, key) == Some(value) ==> EditKey(j, key, Write(value)) == j
  {
  }

  lemma EditKeysCommute(j: Json, key: string, e: Edit, other: string, f: Edit)
    requires Editable(j, key) && Editable(j, other) && key != other
    ensures Editable(EditKey(j, key, e), other) && Editable(EditKey(j, other, f), key)
    ensures EditKey(EditKey(j, key, e), other, f) == EditKey(EditKey(j, other, f), key, e)
  {
    hide Slot;
    EditKeyElsewhere(j, key, e, other);
    EditKeyElsewhere(j, other, f, key);
    var left, right := EditKey(EditKey(j, key, e), other, f), EditKey(EditKey(j, other, f), key, e);
    if j.Obj? {
      assert left.fields == right.fields;
    } else {
      assert left.items == right.items;
    }
  }

  predicate Apart(p: Path, q: Path) {
    p != [] && q != [] && !Overlap(p, q)
  }

  /** Paths apart that share their first key are both longer and apart below it. */
  lemma ApartBelow(p: Path, q: Path)
    requires Apart(p, q) && p[0] == q[0]
    ensures |p| > 1 && |q| > 1 && Apart(p[1..], q[1..])
  {
    assert p == [p[0]] + p[1..] && q == [q[0]] + q[1..];
    assert p[1..] <= q[1..] ==> p <= q;
    assert q[1..] <= p[1..] ==> q <= p;
  }

  /** What an edit at a path does under its first key. */
  function FirstEdit(j: Json, path: Path, e: Edit): Edit
    requires path != [] && Reaches(j, path)
  {
    if |path| == 1 then e else Write(EditAt(Own(j, path[0]).value, path[1..], e))
  }

  lemma EditKeepsKind(j: Json, path: Path, e: Edit)
    requires path != [] && Reaches(j, path)
    ensures EditAt(j, path, e).Arr? == j.Arr? && IsObject(EditAt(j, path, e))
    ensures EditAt(j, path, e) == EditKey(j, path[0], FirstEdit(j, path, e))
  {
  }

  /** An edit is invisible at every path apart from it. */
  lemma {:induction false} EditElsewhere(j: Json, p: Path, e: Edit, q: Path)
    requires Apart(p, q) && Reaches(j, p)
    ensures Get(EditAt(j, p, e), q) == Get(j, q)
    ensures Reaches(EditAt(j, p, e), q) == Reaches(j, q)
    ensures NamesLength(EditAt(j, p, e), q) == NamesLength(j, q)
    decreases |p|
  {
    EditKeepsKind(j, p, e);
    if p[0] != q[0] {
      EditKeyElsewhere(j, p[0], FirstEdit(j, p, e), q[0]);
    } else {
      ApartBelow(p, q);
      var child := Own(j, p[0]).value;
      EditElsewhere(child, p[1..], e, q[1..]);
      EditKeepsKind(child, p[1..], e);
      EditKeyHere(j, p[0], EditAt(child, p[1..], e));
    }
  }

  /** Edits at paths apart commute. */
  lemma {:induction false} EditsCommute(j: Json, p: Path, e: Edit, q: Path, f: Edit)
    requires Apart(p, q) && Reaches(j, p) && Reaches(j, q)
    ensures Reaches(EditAt(j, p, e), q) && Reaches(EditAt(j, q, f), p)
    ensures EditAt(EditAt(j, p, e), q, f) == EditAt(EditAt(j, q, f), p, e)
    decreases |p|
  {
    EditElsewhere(j, p, e, q);
    EditElsewhere(j, q, f, p);
    EditKeepsKind(j, p, e);
    EditKeepsKind(j, q, f);
    var left, right := EditAt(j, p, e), EditAt(j, q, f);
    EditKeepsKind(left, q, f);
    EditKeepsKind(right, p, e);
    if p[0] != q[0] {
      EditKeyElsewhere(j, p[0], FirstEdit(j, p, e), q[0]);
      EditKeyElsewhere(j, q[0], FirstEdit(j, q, f), p[0]);
      EditKeysCommute(j, p[0], FirstEdit(j, p, e), q[0], FirstEdit(j, q, f));
    } else {
      ApartBelow(p, q);
      var child := Own(j, p[0]).value;
      EditsCommute(child, p[1..], e, q[1..], f);
      EditKeyHere(j, p[0], EditAt(child, p[1..], e));
      EditKeyHere(j, q[0], EditAt(child, q[1..], f));
    }
  }

  /** A later write at the same path hides an earlier edit. */
  lemma {:induction false} WriteOver(j: Json, p: Path, e: Edit, value: Json)
    requires p != [] && Reaches(j, p)
    ensures Reaches(EditAt(j, p, e), p)
    ensures EditAt(EditAt(j, p, e), p, Write(value)) == EditAt(j, p, Write(value))
    ensures Get(EditAt(j, p, Write(value)), p) == Some(value)
    decreases |p|
  {
    if |p| > 1 {
      var child := Own(j, p[0]).value;
      WriteOver(child, p[1..], e, value);
      EditKeepsKind(child, p[1..], e);
      EditKeyHere(j, p[0], EditAt(child, p[1..], e));
      EditKeyHere(j, p[0], EditAt(child, p[1..], Write(value)));
    } else {
      EditKeyHere(j, p[0], value);
      assert Get(EditAt(j, p, Write(value)), p) == Some(value);
    }
  }

  /** Writing back what is there changes nothing. */
  lemma {:induction false} WriteBack(j: Json, p: Path, value: Json)
    requires p != [] && Reaches(j, p) && Get(j, p) == Some(value)
    ensures EditAt(j, p, Write(value)) == j
    decreases |p|
  {
    EditKeyHere(j, p[0], value);
    if |p| > 1 {
      var child := Own(j, p[0]).value;
      WriteBack(child, p[1..], value);
      EditKeyHere(j, p[0], child);
    }
  }

  /** Nothing is there: no property, or an array slot emptied to null. */
  predicate Gone(found: Option<Json>) {
    found.None? || found == Some(Null)
  }

  /** After an erase nothing is left at the path. */
  lemma {:induction false} EraseHere(j: Json, p: Path)
    requires p != [] && Reaches(j, p)
    ensures Gone(Get(EditAt(j, p, Erase), p))
    decreases |p|
  {
    if |p| == 1 {
      assert Get(Null, p[1..]) == Some(Null);
    } else {
      var child := Own(j, p[0]).value;
      EraseHere(child, p[1..]);
      EditKeyHere(j, p[0], EditAt(child, p[1..], Erase));
    }
  }
}
