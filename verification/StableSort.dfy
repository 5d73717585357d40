/** Sorting copies of a list with a comparison function, as Array.prototype.sort does: equal
    elements keep their order. */
module StableSort {
  import opened Sequences

  /** The sign of a.localeCompare(b). */
  type Compare = (string, string) -> int

  /** What ECMAScript (section 22.1.3.12, String.prototype.localeCompare) asks of it: a total
      order, in which distinct texts may compare equal. */
  ghost predicate Consistent(cmp: Compare) {
    && (forall a :: cmp(a, a) == 0)
    && (forall a, b :: cmp(a, b) <= 0 <==> cmp(b, a) >= 0)
    && (forall a, b, c :: cmp(a, b) <= 0 && cmp(b, c) <= 0 ==> cmp(a, c) <= 0)
  }

  /** The element goes behind every one that is not greater. */
  function Inserted(cmp: Compare, sorted: seq<string>, x: string): seq<string> {
    if sorted == [] || cmp(sorted[|sorted| - 1], x) <= 0 then sorted + [x]
    else Inserted(cmp, sorted[..|sorted| - 1], x) + [sorted[|sorted| - 1]]
  }

  function Sorted(cmp: Compare, s: seq<string>): seq<string> {
    if s == [] then [] else Inserted(cmp, Sorted(cmp, s[..|s| - 1]), s[|s| - 1])
  }

  ghost predicate InOrder(cmp: Compare, s: seq<string>) {
    forall i, j :: 0 <= i < j < |s| ==> cmp(s[i], s[j]) <= 0
  }

  /** Distinct elements compare distinct. */
  ghost predicate Separates(cmp: Compare, s: seq<string>) {
    forall a, b :: a in s && b in s && a != b ==> cmp(a, b) != 0
  }

  lemma {:induction false} InsertedMembers(cmp: Compare, s: seq<string>, x: string)
    ensures multiset(Inserted(cmp, s, x)) == multiset(s) + multiset{x}
    ensures forall e :: e in Inserted(cmp, s, x) <==> e in s || e == x
  {
    if s != [] && cmp(s[|s| - 1], x) > 0 {
      InsertedMembers(cmp, s[..|s| - 1], x);
      assert s == s[..|s| - 1] + [s[|s| - 1]];
    }
  }

  lemma {:induction false} SortedMembers(cmp: Compare, s: seq<string>)
    ensures multiset(Sorted(cmp, s)) == multiset(s) && |Sorted(cmp, s)| == |s|
    ensures forall e :: e in Sorted(cmp, s) <==> e in s
  {
    if s != [] {
      SortedMembers(cmp, s[..|s| - 1]);
      InsertedMembers(cmp, Sorted(cmp, s[..|s| - 1]), s[|s| - 1]);
      assert s == s[..|s| - 1] + [s[|s| - 1]];
    }
    assert |Sorted(cmp, s)| == |multiset(Sorted(cmp, s))| && |s| == |multiset(s)|;
  }

  lemma {:induction false} InsertedInOrder(cmp: Compare, s: seq<string>, x: string)
    requires Consistent(cmp) && InOrder(cmp, s)
    ensures InOrder(cmp, Inserted(cmp, s, x))
  {
    if s != [] {
      var init, last := s[..|s| - 1], s[|s| - 1];
      if cmp(last, x) <= 0 {
        forall i | 0 <= i < |s| ensures cmp(s[i], x) <= 0 {
          assert cmp(s[i], last) <= 0;
        }
      } else {
        InsertedInOrder(cmp, init, x);
        InsertedMembers(cmp, init, x);
        var inner := Inserted(cmp, init, x);
        forall i | 0 <= i < |inner| ensures cmp(inner[i], last) <= 0 {
          assert inner[i] in inner;
        }
      }
    }
  }

  lemma {:induction false} SortedInOrder(cmp: Compare, s: seq<string>)
    requires Consistent(cmp)
    ensures InOrder(cmp, Sorted(cmp, s))
  {
    if s != [] {
      SortedInOrder(cmp, s[..|s| - 1]);
      InsertedInOrder(cmp, Sorted(cmp, s[..|s| - 1]), s[|s| - 1]);
    }
  }

  lemma {:induction false} InOrderIsSorted(cmp: Compare, s: seq<string>)
    requires InOrder(cmp, s)
    ensures Sorted(cmp, s) == s
  {
    if s != [] {
      InOrderIsSorted(cmp, s[..|s| - 1]);
    }
  }

  /** Sorting a sorted copy changes nothing. */
  lemma SortedTwice(cmp: Compare, s: seq<string>)
    requires Consistent(cmp)
    ensures Sorted(cmp, Sorted(cmp, s)) == Sorted(cmp, s)
  {
    SortedInOrder(cmp, s);
    InOrderIsSorted(cmp, Sorted(cmp, s));
  }

  lemma LastsAreEqual(cmp: Compare, s: seq<string>, t: seq<string>)
    requires Consistent(cmp) && InOrder(cmp, s) && InOrder(cmp, t) && Separates(cmp, s) && s != [] && t != []
    requires forall e :: e in s <==> e in t
    ensures s[|s| - 1] == t[|t| - 1]
  {
    var a, b := s[|s| - 1], t[|t| - 1];
    assert a in s && b in t;
    var i :| 0 <= i < |t| && t[i] == a;
    var k :| 0 <= k < |s| && s[k] == b;
    assert cmp(a, b) <= 0 && cmp(b, a) <= 0;
  }

  lemma InitMultiset(s: seq<string>)
    requires s != []
    ensures multiset(s[..|s| - 1]) == multiset(s) - multiset{s[|s| - 1]}
  {
    assert s == s[..|s| - 1] + [s[|s| - 1]];
  }

  lemma SameMultiset(s: seq<string>, t: seq<string>)
    requires multiset(s) == multiset(t)
    ensures |s| == |t| && forall e :: e in s <==> e in t
  {
    assert |s| == |multiset(s)| && |t| == |multiset(t)|;
    assert forall e :: e in s <==> e in multiset(s);
    assert forall e :: e in t <==> e in multiset(t);
  }

  /** A list without equal elements has one sorted arrangement. */
  lemma {:induction false} SortedArrangementUnique(cmp: Compare, s: seq<string>, t: seq<string>)
    requires Consistent(cmp) && InOrder(cmp, s) && InOrder(cmp, t) && multiset(s) == multiset(t)
    requires Separates(cmp, s)
    ensures s == t
  {
    SameMultiset(s, t);
    if s != [] {
      LastsAreEqual(cmp, s, t);
      InitMultiset(s);
      InitMultiset(t);
      hide Consistent;
      SortedArrangementUnique(cmp, s[..|s| - 1], t[..|t| - 1]);
      assert s == s[..|s| - 1] + [s[|s| - 1]] && t == t[..|t| - 1] + [t[|t| - 1]];
    }
  }

  // ---- Stability ----

  ghost predicate Before(s: seq<string>, a: string, b: string) {
    exists i, j :: 0 <= i < j < |s| && s[i] == a && s[j] == b
  }

  lemma {:induction false} InsertedBehind(cmp: Compare, s: seq<string>, a: string, x: string)
    requires a in s && cmp(a, x) <= 0
    ensures Before(Inserted(cmp, s, x), a, x)
  {
    var t := Inserted(cmp, s, x);
    if cmp(s[|s| - 1], x) <= 0 {
      var i :| 0 <= i < |s| && s[i] == a;
      assert t[i] == a && t[|s|] == x;
    } else {
      InsertedBehind(cmp, s[..|s| - 1], a, x);
      var inner := Inserted(cmp, s[..|s| - 1], x);
      var i, j :| 0 <= i < j < |inner| && inner[i] == a && inner[j] == x;
      assert t[i] == a && t[j] == x;
    }
  }

  lemma {:induction false} InsertedKeeps(cmp: Compare, s: seq<string>, a: string, b: string, x: string)
    requires Before(s, a, b)
    ensures Before(Inserted(cmp, s, x), a, b)
  {
    var i, j :| 0 <= i < j < |s| && s[i] == a && s[j] == b;
    var t := Inserted(cmp, s, x);
    if cmp(s[|s| - 1], x) <= 0 {
      assert t[i] == a && t[j] == b;
    } else {
      var init := s[..|s| - 1];
      if j < |s| - 1 {
        assert init[i] == a && init[j] == b;
        InsertedKeeps(cmp, init, a, b, x);
        var p, q :| 0 <= p < q < |Inserted(cmp, init, x)| && Inserted(cmp, init, x)[p] == a && Inserted(cmp, init, x)[q] == b;
        assert t[p] == a && t[q] == b;
      } else {
        InsertedMembers(cmp, init, x);
        assert init[i] == a && a in init && a in Inserted(cmp, init, x);
        var p :| 0 <= p < |Inserted(cmp, init, x)| && Inserted(cmp, init, x)[p] == a;
        assert t[p] == a && t[|t| - 1] == b;
      }
    }
  }

  /** Elements that are not out of order keep their order. */
  lemma {:induction false} SortedIsStable(cmp: Compare, s: seq<string>, i: nat, j: nat)
    requires i < j < |s| && cmp(s[i], s[j]) <= 0
    ensures Before(Sorted(cmp, s), s[i], s[j])
  {
    var init := s[..|s| - 1];
    if j == |s| - 1 {
      SortedMembers(cmp, init);
      assert init[i] == s[i];
      InsertedBehind(cmp, Sorted(cmp, init), s[i], s[j]);
    } else {
      SortedIsStable(cmp, init, i, j);
      InsertedKeeps(cmp, Sorted(cmp, init), s[i], s[j], s[|s| - 1]);
    }
  }

  /** Without duplicates two elements stand in one order only. */
  lemma BeforeIsOneWay(s: seq<string>, a: string, b: string)
    requires NoDuplicates(s) && Before(s, a, b)
    ensures !Before(s, b, a)
  {
  }

  lemma SortedNoDuplicates(cmp: Compare, s: seq<string>)
    requires NoDuplicates(s)
    ensures NoDuplicates(Sorted(cmp, s))
  {
    SortedMembers(cmp, s);
    OnceEach(s);
    MultisetNoDuplicates(Sorted(cmp, s));
  }

  lemma {:induction false} OnceEach(s: seq<string>)
    requires NoDuplicates(s)
    ensures forall e :: multiset(s)[e] <= 1
  {
    if s != [] {
      var init, last := s[..|s| - 1], s[|s| - 1];
      OnceEach(init);
      assert s == init + [last];
      assert last !in init;
    }
  }

  lemma {:induction false} MultisetNoDuplicates(s: seq<string>)
    requires forall e :: multiset(s)[e] <= 1
    ensures NoDuplicates(s)
  {
    forall i, j | 0 <= i < j < |s| ensures s[i] != s[j] {
      assert s == s[..j] + [s[j]] + s[j + 1..];
      assert s[..j][i] == s[i];
      assert multiset(s) == multiset(s[..j]) + multiset{s[j]} + multiset(s[j + 1..]);
      assert s[i] in multiset(s[..j]);
      assert multiset(s)[s[i]] == multiset(s[..j])[s[i]] + multiset{s[j]}[s[i]] + multiset(s[j + 1..])[s[i]];
    }
  }

  /** The list with two elements exchanged. */
  function Exchanged(s: seq<string>, i: nat, j: nat): seq<string>
    requires i < j < |s|
  {
    s[i := s[j]][j := s[i]]
  }

  /** Elements that compare equal give the two arrangements different sorted copies. */
  lemma EqualElementsShow(cmp: Compare, s: seq<string>, i: nat, j: nat)
    requires Consistent(cmp) && NoDuplicates(s) && i < j < |s| && cmp(s[i], s[j]) == 0
    ensures multiset(Exchanged(s, i, j)) == multiset(s)
    ensures Sorted(cmp, Exchanged(s, i, j)) != Sorted(cmp, s)
  {
    var t := Exchanged(s, i, j);
    SortedIsStable(cmp, s, i, j);
    SortedIsStable(cmp, t, i, j);
    SortedNoDuplicates(cmp, s);
    BeforeIsOneWay(Sorted(cmp, s), s[i], s[j]);
  }

  ghost predicate OneSortedCopy(cmp: Compare, s: seq<string>) {
    forall t: seq<string> :: multiset(t) == multiset(s) ==> Sorted(cmp, t) == Sorted(cmp, s)
  }

  /** All arrangements of a list have the same sorted copy if and only if the comparison tells
      its elements apart. */
  lemma SameSortedCopy(cmp: Compare, s: seq<string>)
    requires Consistent(cmp) && NoDuplicates(s)
    ensures OneSortedCopy(cmp, s) <==> Separates(cmp, s)
  {
    if Separates(cmp, s) {
      forall t: seq<string> | multiset(t) == multiset(s) ensures Sorted(cmp, t) == Sorted(cmp, s) {
        SortedMembers(cmp, s);
        SortedMembers(cmp, t);
        SortedInOrder(cmp, s);
        SortedInOrder(cmp, t);
        SortedArrangementUnique(cmp, Sorted(cmp, s), Sorted(cmp, t));
      }
    } else {
      var a, b :| a in s && b in s && a != b && cmp(a, b) == 0;
      var i :| 0 <= i < |s| && s[i] == a;
      var j :| 0 <= j < |s| && s[j] == b;
      if i < j {
        EqualElementsShow(cmp, s, i, j);
      } else {
        EqualElementsShow(cmp, s, j, i);
      }
    }
  }
}
