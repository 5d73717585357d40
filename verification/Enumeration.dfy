/** ORDER BY and LIMIT over a set of integer keys. */
module Enumeration {
  import opened Sequences

  /** The keys of s in (lo, hi], ascending. */
  function Enum(s: set<int>, lo: int, hi: int): seq<int>
    decreases hi - lo
  {
    if hi <= lo then [] else Enum(s, lo, hi - 1) + if hi in s then [hi] else []
  }

  /** LIMIT k: the set of the first k keys. */
  function TopK(s: set<int>, lo: int, hi: int, k: nat): set<int> {
    set x | x in Take(Enum(s, lo, hi), k)
  }

  lemma {:induction false} EnumMembers(s: set<int>, lo: int, hi: int)
    ensures forall x :: x in Enum(s, lo, hi) <==> x in s && lo < x <= hi
    decreases hi - lo
  {
    if hi <= lo {
    } else {
      EnumMembers(s, lo, hi - 1);
    }
  }

  lemma {:induction false} EnumAscending(s: set<int>, lo: int, hi: int)
    ensures Ascending(Enum(s, lo, hi))
    decreases hi - lo
  {
    if hi <= lo {
    } else {
      EnumAscending(s, lo, hi - 1);
      EnumMembers(s, lo, hi - 1);
      AscendingSnoc(Enum(s, lo, hi - 1), hi);
    }
  }

  lemma {:induction false} EnumSplit(s: set<int>, lo: int, mid: int, hi: int)
    requires lo <= mid <= hi
    ensures Enum(s, lo, hi) == Enum(s, lo, mid) + Enum(s, mid, hi)
    decreases hi - mid
  {
    if hi == mid {
    } else {
      EnumSplit(s, lo, mid, hi - 1);
    }
  }

  lemma {:induction false} EnumFrame(s: set<int>, u: set<int>, lo: int, hi: int)
    requires forall x :: lo < x <= hi ==> (x in s <==> x in u)
    ensures Enum(s, lo, hi) == Enum(u, lo, hi)
    decreases hi - lo
  {
    if hi <= lo {
    } else {
      EnumFrame(s, u, lo, hi - 1);
    }
  }

  lemma {:induction false} EnumSubset(s: set<int>, u: set<int>, lo: int, hi: int)
    requires forall x :: lo < x <= hi && x in s ==> x in u
    ensures |Enum(s, lo, hi)| <= |Enum(u, lo, hi)|
    decreases hi - lo
  {
    if hi <= lo {
    } else {
      EnumSubset(s, u, lo, hi - 1);
    }
  }

  /** The first k > 0 keys are all keys up to the k-th. */
  lemma EnumPrefix(s: set<int>, lo: int, hi: int, k: nat)
    requires 0 < k <= |Enum(s, lo, hi)|
    ensures var e := Enum(s, lo, hi);
            lo < e[k - 1] <= hi && e[..k] == Enum(s, lo, e[k - 1]) && e[k..] == Enum(s, e[k - 1], hi)
  {
    var e := Enum(s, lo, hi);
    var x := e[k - 1];
    EnumMembers(s, lo, hi);
    assert x in e;
    EnumSplit(s, lo, x, hi);
    EnumAscending(s, lo, hi);
    var upTo := Enum(s, lo, x);
    assert upTo[|upTo| - 1] == x;
    assert e[|upTo| - 1] == x;
    assert |upTo| == k;
  }

  ghost predicate Covers(parts: seq<set<int>>, s: set<int>) {
    && (forall i :: 0 <= i < |parts| ==> parts[i] <= s)
    && (forall x :: x in s ==> exists i :: 0 <= i < |parts| && x in parts[i])
  }

  /** The union of the parts' first k keys. */
  function UnionOfTops(parts: seq<set<int>>, lo: int, hi: int, k: nat): set<int> {
    set i, x | 0 <= i < |parts| && x in TopK(parts[i], lo, hi, k) :: x
  }

  /** A key of a part at or below the k-th key of the whole is among the part's first k. */
  lemma TopKKeepsLow(part: set<int>, s: set<int>, lo: int, top: int, hi: int, k: nat, x: int)
    requires part <= s && lo <= top <= hi && |Enum(s, lo, top)| <= k
    requires x in part && lo < x <= top
    ensures x in TopK(part, lo, hi, k)
  {
    EnumSplit(part, lo, top, hi);
    EnumSubset(part, s, lo, top);
    EnumMembers(part, lo, top);
    var low, all := Enum(part, lo, top), Enum(part, lo, hi);
    var i :| 0 <= i < |low| && low[i] == x;
    assert Take(all, k)[i] == x;
  }

  lemma TopKSubset(part: set<int>, lo: int, hi: int, k: nat)
    ensures forall x :: x in TopK(part, lo, hi, k) ==> x in part
  {
    EnumMembers(part, lo, hi);
  }

  /** Pushing LIMIT k below the union is exact: the first k of the parts' first k are the
      first k of the whole. */
  lemma TopKPushdown(parts: seq<set<int>>, s: set<int>, lo: int, hi: int, k: nat)
    requires Covers(parts, s) && lo <= hi
    ensures Take(Enum(UnionOfTops(parts, lo, hi, k), lo, hi), k) == Take(Enum(s, lo, hi), k)
  {
    var e, a := Enum(s, lo, hi), UnionOfTops(parts, lo, hi, k);
    if k > 0 {
      var top := if |e| <= k then hi else e[k - 1];
      if |e| > k {
        EnumPrefix(s, lo, hi, k);
      }
      UnionAgrees(parts, s, lo, top, hi, k);
      EnumFrame(a, s, lo, top);
      EnumSplit(a, lo, top, hi);
    }
  }

  lemma UnionAgrees(parts: seq<set<int>>, s: set<int>, lo: int, top: int, hi: int, k: nat)
    requires Covers(parts, s) && lo <= top <= hi && |Enum(s, lo, top)| <= k
    ensures forall x :: lo < x <= top ==> (x in UnionOfTops(parts, lo, hi, k) <==> x in s)
  {
    forall x | lo < x <= top ensures x in UnionOfTops(parts, lo, hi, k) <==> x in s {
      if x in s {
        var i :| 0 <= i < |parts| && x in parts[i];
        TopKKeepsLow(parts[i], s, lo, top, hi, k, x);
      }
      if x in UnionOfTops(parts, lo, hi, k) {
        var i :| 0 <= i < |parts| && x in TopK(parts[i], lo, hi, k);
        TopKSubset(parts[i], lo, hi, k);
      }
    }
  }
}
