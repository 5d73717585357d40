/** The field encryptor's path operations in place, on the object graph JSON.parse builds:
    the pointer walks down from the root and the last object is changed where it is. */
module JsonNodes {
  import opened Options
  import opened Decimals
  import opened FieldPaths
  import opened JsonTree

  /** A property value: a scalar, or a reference. */
  datatype Child = Leaf(json: Json) | Branch(node: Node)

  /** A property a node can hold: an array holds elements below its length and extras. */
  predicate KeyFits(isArray: bool, length: nat, key: string) {
    !isArray || (key != "length" && (Index(key).Some? ==> Index(key).value < length))
  }

  /** The length once the key is written. */
  function Grown(isArray: bool, length: nat, key: string): nat {
    if isArray && Index(key).Some? && length <= Index(key).value then Index(key).value + 1 else length
  }

  function Elements(length: nat, kids: map<string, Json>): (elements: seq<Json>)
    ensures |elements| == length
  {
    seq(length, i requires 0 <= i < length => if Decimal(i) in kids then kids[Decimal(i)] else Null)
  }

  function ExtrasOf(kids: map<string, Json>): map<string, Json> {
    map k | k in kids && IsExtra(k) :: kids[k]
  }

  /** The tree of a node with these properties. */
  function Tree(isArray: bool, length: nat, kids: map<string, Json>): Json {
    if isArray then Arr(Elements(length, kids), ExtrasOf(kids)) else Obj(kids)
  }

  ghost predicate AllFit(length: nat, kids: map<string, Json>) {
    length <= MAX_ARRAY_LENGTH && forall k :: k in kids ==> KeyFits(true, length, k)
  }

  lemma IndexOfDecimal(i: nat)
    requires i < MAX_ARRAY_LENGTH
    ensures Index(Decimal(i)) == Some(i)
  {
    ParseOfDecimal(i);
  }

  /** The element of a tree at i is the property named by i, or a hole. */
  lemma ElementAt(length: nat, kids: map<string, Json>, i: nat, key: string)
    requires i < length <= MAX_ARRAY_LENGTH
    ensures Decimal(i) == key <==> Index(key) == Some(i)
    ensures Elements(length, kids)[i] == if Decimal(i) in kids then kids[Decimal(i)] else Null
  {
    IndexOfDecimal(i);
  }

  /** The elements once a property is written. */
  lemma ElementsWritten(length: nat, kids: map<string, Json>, key: string, value: Json)
    requires AllFit(length, kids) && key != "length"
    ensures var before, after := Elements(length, kids), Elements(Grown(true, length, key), kids[key := value]);
            after == match Index(key)
                     case None => before
                     case Some(i) => if i < length then before[i := value] else Resized(before, i) + [value]
  {
    var longer := Grown(true, length, key);
    var before, after := Elements(length, kids), Elements(longer, kids[key := value]);
    forall i | 0 <= i < longer
      ensures after[i] == if Index(key) == Some(i) then value else if i < length then before[i] else Null
    {
      ElementAt(longer, kids[key := value], i, key);
      if i < length {
        ElementAt(length, kids, i, key);
      } else {
        IndexOfDecimal(i);
        assert Decimal(i) !in kids;
      }
    }
  }

  lemma ExtrasWritten(kids: map<string, Json>, key: string, value: Json)
    ensures ExtrasOf(kids[key := value]) == if IsExtra(key) then ExtrasOf(kids)[key := value] else ExtrasOf(kids)
  {
  }

  /** Writing a property is the assignment to the tree, growing an array where it must. */
  lemma TreeAssign(js: ToLength, isArray: bool, length: nat, kids: map<string, Json>, key: string, value: Json)
    requires isArray ==> AllFit(length, kids) && key != "length"
    ensures Assign(js, Tree(isArray, length, kids), key, value) ==
              Some(Tree(isArray, Grown(isArray, length, key), kids[key := value]))
  {
    if isArray {
      ElementsWritten(length, kids, key, value);
      ExtrasWritten(kids, key, value);
      hide Elements, ExtrasOf, AllFit, Index, Resized;
    }
  }

  /** A new length keeps the elements below it and all extras. */
  lemma TreeResize(length: nat, n: nat, kids: map<string, Json>)
    requires AllFit(length, kids) && n <= MAX_ARRAY_LENGTH
    ensures var before, after := Tree(true, length, kids), Tree(true, n, map k | k in kids && KeyFits(true, n, k) :: kids[k]);
            after == Arr(Resized(before.items, n), before.extras)
  {
    var kept := map k | k in kids && KeyFits(true, n, k) :: kids[k];
    forall i | 0 <= i < n ensures Elements(n, kept)[i] == Resized(Elements(length, kids), n)[i] {
      ElementAt(n, kept, i, Decimal(i));
      if i < length {
        ElementAt(length, kids, i, Decimal(i));
      } else {
        assert Decimal(i) !in kids;
      }
    }
    assert Elements(n, kept) == Resized(Elements(length, kids), n);
    assert ExtrasOf(kept) == ExtrasOf(kids);
  }

  /** A property that is there is owned; an array owns its length besides. */
  lemma TreeOwn(isArray: bool, length: nat, kids: map<string, Json>, key: string)
    requires isArray ==> length <= MAX_ARRAY_LENGTH
    ensures key in kids && KeyFits(isArray, length, key) ==> Own(Tree(isArray, length, kids), key) == Some(kids[key])
    ensures key !in kids ==>
              (Own(Tree(isArray, length, kids), key).Some? ==> !IsObject(Own(Tree(isArray, length, kids), key).value))
  {
  }

  ghost predicate Fits(child: Child, taken: set<Node>)
    reads if child.Branch? then {child.node} else {}
    reads if child.Branch? then child.node.repr else {}
  {
    match child
    case Leaf(json) => !IsObject(json)
    case Branch(node) => node.Valid() && node.repr !! taken
  }

  ghost function ChildValue(child: Child): Json
    requires child.Branch? ==> child.node.Valid()
    reads if child.Branch? then {child.node} else {}
    reads if child.Branch? then child.node.repr else {}
  {
    match child
    case Leaf(json) => json
    case Branch(node) => node.Value()
  }

  ghost function ReprOf(child: Child): set<Node>
    reads if child.Branch? then {child.node} else {}
  {
    if child.Branch? then child.node.repr else {}
  }

  lemma ElementsDropped(length: nat, kids: map<string, Json>, key: string)
    requires AllFit(length, kids)
    ensures Elements(length, kids - {key}) ==
              if Slot(key, length).Some? then Elements(length, kids)[Slot(key, length).value := Null] else Elements(length, kids)
  {
    forall i | 0 <= i < length
      ensures Elements(length, kids - {key})[i] == if Index(key) == Some(i) then Null else Elements(length, kids)[i]
    {
      ElementAt(length, kids, i, key);
      ElementAt(length, kids - {key}, i, key);
    }
  }

  lemma ExtrasDropped(kids: map<string, Json>, key: string)
    ensures ExtrasOf(kids - {key}) == if IsExtra(key) then ExtrasOf(kids) - {key} else ExtrasOf(kids)
  {
  }

  lemma TreeDelete(isArray: bool, length: nat, kids: map<string, Json>, key: string)
    requires isArray ==> AllFit(length, kids)
    ensures Delete(Tree(isArray, length, kids), key) ==
              if isArray && key == "length" then None else Some(Tree(isArray, length, kids - {key}))
  {
    LengthIsNoIndex();
    if isArray {
      ElementsDropped(length, kids, key);
      ExtrasDropped(kids, key);
      hide Elements, ExtrasOf, AllFit, Index;
    }
  }

  /** A conversion for assignments that do not ask for one. */
  function NoLength(value: Json): Option<nat> {
    None
  }

  lemma RemoveStep(j: Json, key: string, rest: Path)
    requires rest != [] && Get(j, [key] + rest).Some?
    ensures Own(j, key).Some? && Get(Own(j, key).value, rest).Some?
    ensures var below := Remove(Own(j, key).value, rest);
            Remove(j, [key] + rest) ==
              if below.None? then None else if Editable(j, key) then Some(Put(j, key, below.value)) else Some(j)
  {
    assert ([key] + rest)[1..] == rest;
  }

  /** The object a step of setNestedField goes on with. */
  function Below(j: Json, key: string): Json {
    var child := Own(j, key);
    if child.Some? && IsObject(child.value) then child.value else Obj(map[])
  }

  lemma SetStep(js: ToLength, j: Json, key: string, rest: Path, value: Json)
    requires rest != []
    ensures var below := Set(js, Below(j, key), rest, value);
            Set(js, j, [key] + rest, value) ==
              if (j.Arr? && key == "length") || below.None? then None else Assign(js, j, key, below.value)
  {
    assert ([key] + rest)[1..] == rest;
  }

  /** An object, or an array whose elements are properties like its extras; an element that is
      not there is a hole, which JSON.stringify writes as null. */
  class Node {
    var isArray: bool
    var length: nat
    var fields: map<string, Child>
    ghost var repr: set<Node>

    /** A tree: no node is reached twice. */
    ghost predicate Valid()
      reads this, repr
      decreases repr
    {
      && this in repr
      && (forall k :: k in fields && fields[k].Leaf? ==> !IsObject(fields[k].json))
      && (forall k :: k in fields && fields[k].Branch? ==>
            fields[k].node in repr && fields[k].node.repr <= repr && this !in fields[k].node.repr && fields[k].node.Valid())
      && (forall k, m :: k in fields && m in fields && k != m && fields[k].Branch? && fields[m].Branch? ==>
            fields[k].node.repr !! fields[m].node.repr)
      && (isArray ==> length <= MAX_ARRAY_LENGTH && forall k :: k in fields ==> KeyFits(true, length, k))
    }

    /** The tree the node is the root of. */
    ghost function Value(): Json
      requires Valid()
      reads this, repr
      decreases repr, 1
    {
      if isArray
      then Arr(Items(length),
               map k | k in fields && IsExtra(k) :: if fields[k].Leaf? then fields[k].json else fields[k].node.Value())
      else Obj(map k | k in fields :: if fields[k].Leaf? then fields[k].json else fields[k].node.Value())
    }

    /** The first n slots. */
    ghost function Items(n: nat): (items: seq<Json>)
      requires Valid()
      reads this, repr
      ensures |items| == n
      decreases repr, 0, n
    {
      if n == 0 then []
      else
        var key := Decimal(n - 1);
        Items(n - 1) + [if key !in fields then Null
                        else if fields[key].Leaf? then fields[key].json else fields[key].node.Value()]
    }

    ghost function ValueAt(key: string): Json
      requires Valid() && key in fields
      reads this, repr
    {
      if fields[key].Leaf? then fields[key].json else fields[key].node.Value()
    }

    lemma {:induction false} ItemAt(n: nat, i: nat)
      requires Valid() && i < n
      ensures Items(n)[i] == if Decimal(i) in fields then ValueAt(Decimal(i)) else Null
    {
      hide KeyFits, IsObject, Decimal;
      if i < n - 1 {
        ItemAt(n - 1, i);
      }
    }

    /** The values of the properties. */
    ghost function Kids(): (kids: map<string, Json>)
      requires Valid()
      reads this, repr
    {
      map k | k in fields :: ValueAt(k)
    }

    lemma ValueFromKids()
      requires Valid()
      ensures Value() == Tree(isArray, length, Kids())
    {
      hide KeyFits, IsObject, Decimal;
      if isArray {
        forall i | 0 <= i < length ensures Items(length)[i] == if Decimal(i) in Kids() then Kids()[Decimal(i)] else Null {
          ItemAt(length, i);
        }
      }
    }

    constructor ()
      ensures Valid() && !isArray && fields == map[] && repr == {this}
    {
      isArray, length, fields := false, 0, map[];
      repr := {this};
    }

    method Attach(key: string, value: Child)
      requires Valid() && Fits(value, repr) && KeyFits(isArray, length, key)
      modifies `fields, `repr
      ensures Valid() && repr == old(repr) + ReprOf(value) && fields == old(fields)[key := value]
    {
      hide KeyFits, IsObject;
      fields := fields[key := value];
      repr := repr + ReprOf(value);
    }

    /** The part of an assignment that lengthens the array. */
    method Grow(key: string)
      requires Valid() && (isArray ==> key != "length")
      modifies `length
      ensures Valid() && length == Grown(isArray, old(length), key) && KeyFits(isArray, length, key)
      ensures Kids() == old(Kids())
    {
      hide IsObject;
      length := Grown(isArray, length, key);
      forall k | k in fields ensures ValueAt(k) == old(ValueAt(k)) {
      }
    }

    method Write(key: string, value: Child)
      requires Valid() && Fits(value, repr) && KeyFits(isArray, length, key)
      modifies `fields, `repr
      ensures Valid() && repr == old(repr) + ReprOf(value)
      ensures fields == old(fields)[key := value]
      ensures Kids() == old(Kids())[key := ChildValue(value)]
    {
      Attach(key, value);
      hide KeyFits, IsObject;
      forall k | k in fields && k != key ensures ValueAt(k) == old(ValueAt(k)) {
      }
    }

    /** current.length = n: elements from n on are gone. */
    method SetLength(n: nat)
      requires Valid() && isArray && n <= MAX_ARRAY_LENGTH
      modifies this
      ensures Valid() && repr == old(repr) && isArray && length == n
      ensures Kids() == map k | k in old(Kids()) && KeyFits(true, n, k) :: old(Kids())[k]
    {
      hide KeyFits, IsObject;
      fields := map k | k in fields && KeyFits(true, n, k) :: fields[k];
      length := n;
      forall k | k in fields ensures ValueAt(k) == old(ValueAt(k)) {
      }
    }

    /** current.length = value. */
    method PutLength(ghost js: ToLength, value: Child, asLength: Option<nat>) returns (ok: bool)
      requires Valid() && isArray && Fits(value, repr) && asLength == js(ChildValue(value))
      modifies this
      ensures ok <==> Assign(js, old(Value()), "length", old(ChildValue(value))).Some?
      ensures ok ==> Valid() && repr == old(repr)
      ensures ok ==> Some(Value()) == Assign(js, old(Value()), "length", old(ChildValue(value)))
    {
      ghost var kids := Kids();
      ValueFromKids();
      LengthIsNoIndex();
      ok := asLength.Some? && asLength.value <= MAX_ARRAY_LENGTH;
      if ok {
        TreeResize(length, asLength.value, kids);
        hide Tree, KeyFits, Resized;
        SetLength(asLength.value);
        ValueFromKids();
      }
    }

    method PutProperty(ghost js: ToLength, key: string, value: Child)
      requires Valid() && Fits(value, repr) && (isArray ==> key != "length")
      modifies this
      ensures Valid() && repr == old(repr) + old(ReprOf(value))
      ensures Some(Value()) == Assign(js, old(Value()), key, old(ChildValue(value)))
    {
      ValueFromKids();
      TreeAssign(js, isArray, length, Kids(), key, ChildValue(value));
      ReprAllocated(value);
      hide Tree, Assign, KeyFits, Valid, Fits, ChildValue, ReprOf, Value, Items, Kids;
      Grow(key);
      ValueKept(value);
      Write(key, value);
      ValueFromKids();
    }

    /** current[key] = value; asLength is what the value converts to as the length of an array.
        False when a value that is no length is assigned to one, which throws. */
    method Put(ghost js: ToLength, key: string, value: Child, asLength: Option<nat>) returns (ok: bool)
      requires Valid() && Fits(value, repr) && asLength == js(ChildValue(value))
      modifies this
      ensures ok <==> Assign(js, old(Value()), key, old(ChildValue(value))).Some?
      ensures ok ==> Valid() && repr <= old(repr) + old(ReprOf(value)) && old(repr) <= repr
      ensures ok ==> Some(Value()) == Assign(js, old(Value()), key, old(ChildValue(value)))
    {
      hide *;
      if isArray && key == "length" {
        ok := PutLength(js, value, asLength);
      } else {
        PutProperty(js, key, value);
        ok := true;
      }
    }

    lemma ReprAllocated(value: Child)
      requires Valid() && Fits(value, repr)
      ensures this in repr && this !in ReprOf(value)
    {
    }

    /** The object under key has changed, within its own nodes and new ones, and nothing else. */
    twostate lemma ChildChanged(key: string)
      requires old(Valid()) && key in old(fields) && old(fields[key]).Branch?
      requires fields == old(fields) && isArray == old(isArray) && length == old(length)
      requires var child := fields[key].node;
               child.Valid() && this !in child.repr && repr == old(repr) + child.repr &&
               child.repr !! (old(repr) - old(child.repr))
      requires unchanged(old(repr) - old(fields[key].node.repr) - {this})
      ensures Valid() && Kids() == old(Kids())[key := ValueAt(key)]
    {
      hide KeyFits, IsObject;
      forall k | k in fields && k != key && fields[k].Branch?
        ensures fields[k].node.Valid() && fields[k].node.repr == old(fields[k].node.repr) && ValueAt(k) == old(ValueAt(k))
      {
        var sibling := fields[k].node;
        assert old(sibling.repr) <= old(repr) - old(fields[key].node.repr) - {this};
      }
    }

    /** setNestedField on the object under key: only that property's value changes. */
    method SetBelow(ghost js: ToLength, key: string, rest: Path, value: Child, asLength: Option<nat>) returns (ok: bool)
      requires Valid() && key in fields && fields[key].Branch? && rest != [] && Fits(value, repr)
      requires asLength == js(ChildValue(value))
      modifies repr
      ensures ok <==> Set(js, old(ValueAt(key)), rest, old(ChildValue(value))).Some?
      ensures ok ==> Valid() && old(repr) <= repr && fresh(repr - old(repr) - old(ReprOf(value)))
      ensures ok ==> isArray == old(isArray) && length == old(length)
      ensures ok ==> Kids() == old(Kids())[key := Set(js, old(ValueAt(key)), rest, old(ChildValue(value))).value]
      decreases |rest|, 1
    {
      var child := fields[key].node;
      ok := child.SetNestedField(js, rest, value, asLength);
      if ok {
        repr := repr + child.repr;
        hide Set;
        ChildChanged(key);
      }
    }

    lemma BelowIsKid(key: string)
      requires Valid()
      ensures Below(Value(), key) == if key in fields && fields[key].Branch? then ValueAt(key) else Obj(map[])
    {
      ValueFromKids();
      TreeOwn(isArray, length, Kids(), key);
      if key in fields && fields[key].Branch? {
        assert IsObject(fields[key].node.Value());
      }
    }

    /** A value apart from the tree is not touched by changing this node. */
    twostate lemma ValueKept(value: Child)
      requires old(Valid()) && old(Fits(value, repr)) && fresh(repr - old(repr))
      requires unchanged(old(ReprOf(value)))
      ensures Fits(value, repr) && ChildValue(value) == old(ChildValue(value)) && ReprOf(value) == old(ReprOf(value))
    {
      if value.Branch? {
        assert old(value.node.Valid()) && value.node in old(value.node.repr);
        assert value.node.repr == old(value.node.repr);
        assert value.node.Valid();
      }
    }

    /** current[part] = {} unless an object is there. */
    method ObjectAt(key: string)
      requires Valid() && (isArray ==> key != "length")
      modifies this
      ensures Valid() && old(repr) <= repr && fresh(repr - old(repr)) && isArray == old(isArray)
      ensures length == Grown(isArray, old(length), key)
      ensures key in fields && fields[key].Branch? && ValueAt(key) == Below(old(Value()), key)
      ensures Kids() == old(Kids())[key := Below(old(Value()), key)]
    {
      BelowIsKid(key);
      ghost var below := Below(Value(), key);
      if key in fields && fields[key].Branch? {
        assert Kids() == Kids()[key := below];
      } else {
        hide Below, KeyFits, IsObject;
        Grow(key);
        var created := new Node();
        created.ValueFromKids();
        assert Fits(Branch(created), repr) && ReprOf(Branch(created)) == {created} && ChildValue(Branch(created)) == below;
        hide Valid, Fits, ChildValue, ReprOf, Value, Items;
        Write(key, Branch(created));
        assert Kids()[key] == below;
      }
    }

    /** One level of setNestedField above the last. */
    method SetInside(ghost js: ToLength, key: string, rest: Path, value: Child, asLength: Option<nat>) returns (ok: bool)
      requires Valid() && rest != [] && Fits(value, repr) && asLength == js(ChildValue(value))
      modifies repr
      ensures ok <==> Set(js, old(Value()), [key] + rest, old(ChildValue(value))).Some?
      ensures ok ==> Valid() && old(repr) <= repr && fresh(repr - old(repr) - old(ReprOf(value)))
      ensures ok ==> Some(Value()) == Set(js, old(Value()), [key] + rest, old(ChildValue(value)))
      decreases |rest|, 2
    {
      ghost var kids, v, j := Kids(), ChildValue(value), Value();
      ValueFromKids();
      SetStep(js, j, key, rest, v);
      if isArray && key == "length" {
        return false;
      }
      ghost var inner := Set(js, Below(j, key), rest, v);
      if inner.Some? {
        TreeAssign(js, isArray, length, kids, key, inner.value);
      }
      ReprAllocated(value);
      ghost var before, extra := repr, ReprOf(value);
      hide *;
      ObjectAt(key);
      ValueKept(value);
      ghost var middle := repr;
      ok := SetBelow(js, key, rest, value, asLength);
      if ok {
        assert repr - before - extra <= (repr - middle - extra) + (middle - before);
        assert Kids() == kids[key := inner.value];
        ValueFromKids();
      }
    }

    /** setNestedField: false when it throws. */
    method SetNestedField(ghost js: ToLength, parts: Path, value: Child, asLength: Option<nat>) returns (ok: bool)
      requires Valid() && parts != [] && Fits(value, repr) && asLength == js(ChildValue(value))
      modifies repr
      ensures ok <==> Set(js, old(Value()), parts, old(ChildValue(value))).Some?
      ensures ok ==> Valid() && old(repr) <= repr && fresh(repr - old(repr) - old(ReprOf(value)))
      ensures ok ==> Some(Value()) == Set(js, old(Value()), parts, old(ChildValue(value)))
      decreases |parts|, 0
    {
      var key := parts[0];
      ReprAllocated(value);
      if |parts| == 1 {
        hide Valid, Fits, Assign, ChildValue, Value;
        ok := Put(js, key, value, asLength);
      } else {
        assert parts == [key] + parts[1..];
        hide *;
        ok := SetInside(js, key, parts[1..], value, asLength);
      }
    }

    /** removeNestedField on the object under key. */
    method RemoveBelow(key: string, rest: Path) returns (ok: bool)
      requires Valid() && key in fields && fields[key].Branch? && rest != [] && Get(ValueAt(key), rest).Some?
      modifies repr
      ensures ok <==> Remove(old(ValueAt(key)), rest).Some?
      ensures ok ==> Valid() && repr == old(repr) && isArray == old(isArray) && length == old(length)
      ensures ok ==> Kids() == old(Kids())[key := Remove(old(ValueAt(key)), rest).value]
      decreases |rest|, 1
    {
      var child := fields[key].node;
      ok := child.RemoveNestedField(rest);
      if ok {
        assert repr == old(repr) + child.repr;
        hide Remove, Get;
        ChildChanged(key);
      }
    }

    /** delete current[key]: false for the length of an array, which throws. */
    method DeleteKey(key: string) returns (ok: bool)
      requires Valid()
      modifies this
      ensures ok <==> Delete(old(Value()), key).Some?
      ensures ok ==> Valid() && repr == old(repr) && Value() == Delete(old(Value()), key).value
    {
      ghost var kids := Kids();
      ValueFromKids();
      TreeDelete(isArray, length, kids, key);
      hide Tree, Delete, IsObject;
      if isArray && key == "length" {
        return false;
      }
      Drop(key);
      ValueFromKids();
      ok := true;
    }

    method Drop(key: string)
      requires Valid()
      modifies `fields
      ensures Valid() && Kids() == old(Kids()) - {key}
    {
      hide KeyFits, IsObject;
      fields := fields - {key};
      forall k | k in fields ensures ValueAt(k) == old(ValueAt(k)) {
      }
    }

    /** removeNestedField, on a path that is there: false when the delete throws. */
    method RemoveNestedField(parts: Path) returns (ok: bool)
      requires Valid() && parts != [] && Get(Value(), parts).Some?
      modifies repr
      ensures ok <==> Remove(old(Value()), parts).Some?
      ensures ok ==> Valid() && repr == old(repr) && Value() == Remove(old(Value()), parts).value
      decreases |parts|, 0
    {
      if |parts| == 1 {
        ok := DeleteKey(parts[0]);
      } else {
        assert parts == [parts[0]] + parts[1..];
        ok := RemoveInside(parts[0], parts[1..]);
      }
    }

    /** One level of removeNestedField above the last. */
    method RemoveInside(key: string, rest: Path) returns (ok: bool)
      requires Valid() && rest != [] && Get(Value(), [key] + rest).Some?
      modifies repr
      ensures ok <==> Remove(old(Value()), [key] + rest).Some?
      ensures ok ==> Valid() && repr == old(repr) && Value() == Remove(old(Value()), [key] + rest).value
      decreases |rest|, 2
    {
      ghost var kids := Kids();
      ValueFromKids();
      OwnBelow(key, rest);
      RemoveStep(Value(), key, rest);
      KeyIsThere(key);
      if Remove(ValueAt(key), rest).Some? {
        TreeAssign(NoLength, isArray, length, kids, key, Remove(ValueAt(key), rest).value);
      }
      hide *;
      ok := RemoveBelow(key, rest);
      if ok {
        ValueFromKids();
      }
    }

    lemma KeyIsThere(key: string)
      requires Valid() && key in fields
      ensures KeyFits(isArray, length, key) && Grown(isArray, length, key) == length && Editable(Value(), key)
    {
    }

    /** A path that goes on below a key goes through an object stored there. */
    lemma OwnBelow(key: string, rest: Path)
      requires Valid() && rest != [] && Get(Value(), [key] + rest).Some?
      ensures key in fields && fields[key].Branch? && Own(Value(), key) == Some(ValueAt(key))
      ensures Get(ValueAt(key), rest).Some?
    {
      ValueFromKids();
      TreeOwn(isArray, length, Kids(), key);
      assert ([key] + rest)[1..] == rest;
      var child := Own(Value(), key).value;
      assert Own(child, rest[0]).Some?;
    }

    /** getNestedField.  Nothing is found at a hole, which the tree shows as null. */
    method GetNestedField(parts: Path) returns (r: Option<Child>)
      requires Valid()
      ensures r.Some? ==> (r.value.Branch? ==> r.value.node.Valid()) && Get(Value(), parts) == Some(ChildValue(r.value))
      ensures r.None? ==> Get(Value(), parts).None? || Get(Value(), parts) == Some(Null)
    {
      var current := Branch(this);
      for i := 0 to |parts|
        invariant current.Branch? ==> current.node.Valid()
        invariant current.Leaf? ==> !IsObject(current.json)
        invariant Get(Value(), parts) == Get(ChildValue(current), parts[i..])
      {
        if current.Leaf? {
          return None;
        }
        var node, part := current.node, parts[i];
        node.OwnProperty(part);
        assert parts[i..][1..] == parts[i + 1..];
        hide Own, Tree, KeyFits;
        if part in node.fields {
          current := node.fields[part];
        } else if node.isArray && part == "length" {
          current := Leaf(Number(Decimal(node.length)));
        } else {
          return None;
        }
      }
      r := Some(current);
    }

    /** What hasOwnProperty sees of the tree. */
    lemma OwnProperty(key: string)
      requires Valid()
      ensures key in fields ==> Own(Value(), key) == Some(ValueAt(key))
      ensures key !in fields && isArray && key == "length" ==> Own(Value(), key) == Some(Number(Decimal(length)))
      ensures key !in fields && !(isArray && key == "length") ==> Own(Value(), key).None? || Own(Value(), key) == Some(Null)
    {
      ValueFromKids();
      TreeOwn(isArray, length, Kids(), key);
      LengthIsNoIndex();
    }
  }
}
