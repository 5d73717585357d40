/** Erasing a family of paths from a tree and writing them again, in any order. */
module JsonErasure {
  import opened FieldPaths
  import opened JsonTree

  /** Editable paths of the tree, pairwise apart. */
  ghost predicate Family(j: Json, ps: seq<Path>) {
    && (forall i :: 0 <= i < |ps| ==> ps[i] != [] && Reaches(j, ps[i]))
    && (forall i, k :: 0 <= i < k < |ps| ==> Apart(ps[i], ps[k]))
  }

  ghost predicate ApartFromAll(q: Path, ps: seq<Path>) {
    forall i :: 0 <= i < |ps| ==> Apart(ps[i], q)
  }

  function EraseOne(j: Json, p: Path): Json {
    if p != [] && Reaches(j, p) then EditAt(j, p, Erase) else j
  }

  /** The tree without the paths, erased in order. */
  function Erased(j: Json, ps: seq<Path>): Json {
    if ps == [] then j else EraseOne(Erased(j, ps[..|ps| - 1]), ps[|ps| - 1])
  }

  function Without<T>(s: seq<T>, i: nat): seq<T>
    requires i < |s|
  {
    s[..i] + s[i + 1..]
  }

  lemma FamilyInit(j: Json, ps: seq<Path>)
    requires Family(j, ps) && ps != []
    ensures Family(j, ps[..|ps| - 1]) && ApartFromAll(ps[|ps| - 1], ps[..|ps| - 1])
  {
  }

  lemma FamilySnoc(j: Json, ps: seq<Path>, q: Path)
    requires Family(j, ps) && q != [] && Reaches(j, q) && ApartFromAll(q, ps)
    ensures Family(j, ps + [q])
  {
  }

  lemma ErasedSnoc(j: Json, ps: seq<Path>, q: Path)
    ensures Erased(j, ps + [q]) == EraseOne(Erased(j, ps), q)
  {
    assert (ps + [q])[..|ps|] == ps;
  }

  /** Erasing a family is invisible at a path apart from it. */
  lemma {:induction false} ErasedElsewhere(j: Json, ps: seq<Path>, q: Path)
    requires Family(j, ps) && q != [] && ApartFromAll(q, ps)
    ensures Get(Erased(j, ps), q) == Get(j, q)
    ensures Reaches(Erased(j, ps), q) == Reaches(j, q)
    ensures NamesLength(Erased(j, ps), q) == NamesLength(j, q)
  {
    if ps != [] {
      var init, last := ps[..|ps| - 1], ps[|ps| - 1];
      FamilyInit(j, ps);
      ErasedElsewhere(j, init, q);
      ErasedElsewhere(j, init, last);
      EditElsewhere(Erased(j, init), last, Erase, q);
    }
  }

  /** Erasing commutes with an edit apart from the family. */
  lemma {:induction false} EditThroughErased(j: Json, ps: seq<Path>, q: Path, e: Edit)
    requires Family(j, ps) && q != [] && ApartFromAll(q, ps) && Reaches(j, q)
    ensures Reaches(Erased(j, ps), q) && Family(EditAt(j, q, e), ps)
    ensures EditAt(Erased(j, ps), q, e) == Erased(EditAt(j, q, e), ps)
  {
    forall i | 0 <= i < |ps| ensures Reaches(EditAt(j, q, e), ps[i]) {
      EditElsewhere(j, q, e, ps[i]);
    }
    if ps != [] {
      var init, last := ps[..|ps| - 1], ps[|ps| - 1];
      FamilyInit(j, ps);
      EditThroughErased(j, init, q, e);
      ErasedElsewhere(j, init, q);
      ErasedElsewhere(j, init, last);
      EditsCommute(Erased(j, init), last, Erase, q, e);
      assert EraseOne(EditAt(Erased(j, init), q, e), last) == EditAt(EditAt(Erased(j, init), q, e), last, Erase);
    }
  }

  lemma FamilyWithout(j: Json, ps: seq<Path>, i: nat)
    requires Family(j, ps) && i < |ps|
    ensures Family(j, Without(ps, i)) && ApartFromAll(ps[i], Without(ps, i))
  {
    var w := Without(ps, i);
    assert forall k :: 0 <= k < |w| ==> w[k] == ps[if k < i then k else k + 1];
  }

  lemma WriteLastErased(j: Json, init: seq<Path>, q: Path, value: Json)
    requires Family(j, init) && q != [] && ApartFromAll(q, init) && Reaches(j, q)
    ensures var x := EraseOne(Erased(j, init), q);
            Reaches(x, q) && EditAt(x, q, Write(value)) == Erased(EditAt(j, q, Write(value)), init)
  {
    ErasedElsewhere(j, init, q);
    WriteOver(Erased(j, init), q, Erase, value);
    EditThroughErased(j, init, q, Write(value));
  }

  lemma WriteBeforeErase(x: Json, last: Path, q: Path, e: Edit)
    requires Apart(last, q) && Reaches(x, last) && Reaches(x, q)
    ensures Reaches(EraseOne(x, last), q) && EditAt(EraseOne(x, last), q, e) == EraseOne(EditAt(x, q, e), last)
  {
    EditsCommute(x, last, Erase, q, e);
  }

  lemma FamilyAt(j: Json, ps: seq<Path>, i: nat)
    requires Family(j, ps) && i < |ps|
    ensures ps[i] != [] && Reaches(j, ps[i])
    ensures forall k :: i < k < |ps| ==> Apart(ps[i], ps[k]) && Apart(ps[k], ps[i])
  {
  }

  lemma WithoutSnoc<T>(s: seq<T>, i: nat)
    requires i < |s| - 1
    ensures Without(s, i) == Without(s[..|s| - 1], i) + [s[|s| - 1]]
  {
  }

  lemma WithoutLast<T>(s: seq<T>)
    requires s != []
    ensures Without(s, |s| - 1) == s[..|s| - 1]
  {
  }

  /** Writing one erased path again takes it off the list of erased paths, wherever it stood. */
  lemma {:induction false} WriteErased(j: Json, ps: seq<Path>, i: nat, value: Json)
    requires Family(j, ps) && i < |ps|
    ensures Reaches(Erased(j, ps), ps[i])
    ensures EditAt(Erased(j, ps), ps[i], Write(value)) == Erased(EditAt(j, ps[i], Write(value)), Without(ps, i))
  {
    hide Family, ApartFromAll, Reaches, EditAt, Without;
    var init, last, q := ps[..|ps| - 1], ps[|ps| - 1], ps[i];
    FamilyInit(j, ps);
    FamilyAt(j, ps, i);
    if i == |ps| - 1 {
      WriteLastErased(j, init, q, value);
      WithoutLast(ps);
    } else {
      WriteErased(j, init, i, value);
      FamilyAt(j, ps, |ps| - 1);
      ErasedElsewhere(j, init, last);
      WriteBeforeErase(Erased(j, init), last, q, Write(value));
      WithoutSnoc(ps, i);
      ErasedSnoc(EditAt(j, q, Write(value)), Without(init, i), last);
    }
  }

  /** The paths left form a family of the tree with the path written, too. */
  lemma FamilyAfterWrite(j: Json, ps: seq<Path>, i: nat, value: Json)
    requires Family(j, ps) && i < |ps|
    ensures Family(EditAt(j, ps[i], Write(value)), Without(ps, i))
  {
    FamilyWithout(j, ps, i);
    EditThroughErased(j, Without(ps, i), ps[i], Write(value));
  }

  /** Erased paths are gone, whatever was erased after them. */
  lemma {:induction false} ErasedHere(j: Json, ps: seq<Path>, i: nat)
    requires Family(j, ps) && i < |ps|
    ensures Gone(Get(Erased(j, ps), ps[i]))
  {
    var init, last := ps[..|ps| - 1], ps[|ps| - 1];
    FamilyInit(j, ps);
    FamilyAt(j, ps, |ps| - 1);
    FamilyAt(j, ps, i);
    ErasedElsewhere(j, init, last);
    hide Family, ApartFromAll, Reaches, EditAt, Gone, Get;
    if i == |ps| - 1 {
      EraseHere(Erased(j, init), last);
    } else {
      ErasedHere(j, init, i);
      EditElsewhere(Erased(j, init), last, Erase, ps[i]);
    }
  }
}
