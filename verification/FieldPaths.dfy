/** Dot paths: their segments, and the string test for overlapping paths. */
module FieldPaths {

  type Path = seq<string>

  /** path.split("."). */
  function Split(s: string): (segments: Path)
    ensures |segments| >= 1
  {
    if s == "" then [""]
    else
      var rest := Split(s[1..]);
      if s[0] == '.' then [""] + rest else [[s[0]] + rest[0]] + rest[1..]
  }

  /** One path is at or below the other. */
  predicate Overlap(p: Path, q: Path) {
    p <= q || q <= p
  }

  /** The test assertDistinctFieldPaths makes on the strings. */
  predicate StringsOverlap(field: string, other: string) {
    field == other || other + "." <= field || field + "." <= other
  }

  predicate SafeSegment(segment: string) {
    segment != "" && segment != "__proto__" && segment != "constructor" && segment != "prototype"
  }

  predicate ValidFieldPath(field: string) {
    forall i :: 0 <= i < |Split(field)| ==> SafeSegment(Split(field)[i])
  }

  /** Fields whose paths are all valid and pairwise apart. */
  predicate DistinctFieldPaths(fields: seq<string>) {
    && (forall i :: 0 <= i < |fields| ==> ValidFieldPath(fields[i]))
    && (forall i, j :: 0 <= i < j < |fields| ==> !Overlap(Split(fields[i]), Split(fields[j])))
  }

  lemma {:induction false} SplitInjective(a: string, b: string)
    requires Split(a) == Split(b)
    ensures a == b
  {
    if a == "" || b == "" {
      SplitNonEmpty(a);
      SplitNonEmpty(b);
    } else {
      var ra, rb := Split(a[1..]), Split(b[1..]);
      if a[0] == '.' {
        assert Split(a)[0] == "";
        assert ra == Split(a)[1..] && rb == Split(b)[1..];
      } else {
        assert Split(b)[0] == Split(a)[0] == [a[0]] + ra[0];
        assert ra[0] == Split(a)[0][1..] && rb[0] == Split(b)[0][1..];
        assert ra == [ra[0]] + Split(a)[1..] && rb == [rb[0]] + Split(b)[1..];
      }
      SplitInjective(a[1..], b[1..]);
      assert a == [a[0]] + a[1..] && b == [b[0]] + b[1..];
    }
  }

  lemma {:induction false} SplitNonEmpty(s: string)
    ensures s != "" ==> Split(s) != [""]
  {
    if s != "" && s[0] != '.' {
      assert Split(s)[0] != "";
    }
  }

  ghost predicate ProperPrefix(p: Path, q: Path) {
    |p| < |q| && forall i :: 0 <= i < |p| ==> p[i] == q[i]
  }

  /** Peeling the first characters off two texts peels the prefix relation. */
  lemma ProperPrefixStep(a: string, b: string)
    requires a != "" && b != ""
    ensures ProperPrefix(Split(a), Split(b)) <==> a[0] == b[0] && ProperPrefix(Split(a[1..]), Split(b[1..]))
  {
    var ra, rb, sa, sb := Split(a[1..]), Split(b[1..]), Split(a), Split(b);
    if a[0] == '.' && b[0] == '.' {
      assert sa == [""] + ra && sb == [""] + rb;
      PrefixUnderHead("", ra, rb);
    } else if a[0] != '.' && b[0] != '.' {
      assert sa == [[a[0]] + ra[0]] + ra[1..] && sb == [[b[0]] + rb[0]] + rb[1..];
      PrefixUnderChar(a[0], b[0], ra, rb);
    } else {
      assert sa[0] != sb[0];
    }
  }

  lemma PrefixUnderHead(head: string, p: Path, q: Path)
    ensures ProperPrefix([head] + p, [head] + q) <==> ProperPrefix(p, q)
  {
    var hp, hq := [head] + p, [head] + q;
    assert forall i :: 0 <= i < |p| ==> hp[i + 1] == p[i];
    assert forall i :: 0 <= i < |q| ==> hq[i + 1] == q[i];
    if ProperPrefix(hp, hq) {
      forall i | 0 <= i < |p| ensures p[i] == q[i] {
        assert hp[i + 1] == hq[i + 1];
      }
    }
  }

  lemma PrefixUnderChar(c: char, d: char, p: Path, q: Path)
    requires p != [] && q != []
    ensures ProperPrefix([[c] + p[0]] + p[1..], [[d] + q[0]] + q[1..]) <==> c == d && ProperPrefix(p, q)
  {
    var cp, dq := [[c] + p[0]] + p[1..], [[d] + q[0]] + q[1..];
    assert cp[0][0] == c && dq[0][0] == d && cp[0][1..] == p[0] && dq[0][1..] == q[0];
    assert forall i :: 1 <= i < |p| ==> cp[i] == p[i];
    assert forall i :: 1 <= i < |q| ==> dq[i] == q[i];
  }

  /** Starting with `a.` as a string is having a's segments as a proper prefix. */
  lemma {:induction false} StartsWithIsSegmentPrefix(a: string, b: string)
    ensures a + "." <= b <==> ProperPrefix(Split(a), Split(b))
  {
    if a == "" {
      if b != "" {
        assert b[0] != '.' ==> Split(b)[0] != "";
      }
    } else if b == "" {
      SplitNonEmpty(a);
    } else {
      StartsWithIsSegmentPrefix(a[1..], b[1..]);
      ProperPrefixStep(a, b);
      assert (a + ".")[1..] == a[1..] + ".";
      assert a + "." <= b <==> a[0] == b[0] && a[1..] + "." <= b[1..];
    }
  }

  /** The string test is exactly the prefix relation on segments. */
  lemma StringsOverlapIsPathOverlap(field: string, other: string)
    ensures StringsOverlap(field, other) <==> Overlap(Split(field), Split(other))
  {
    StartsWithIsSegmentPrefix(field, other);
    StartsWithIsSegmentPrefix(other, field);
    if Split(field) == Split(other) {
      SplitInjective(field, other);
    }
  }

  /** assertDistinctFieldPaths: false stands for the error it throws. */
  method AssertDistinctFieldPaths(fields: seq<string>) returns (ok: bool)
    ensures ok <==> DistinctFieldPaths(fields)
  {
    var accepted := [];
    for i := 0 to |fields|
      invariant accepted == fields[..i]
      invariant DistinctFieldPaths(fields[..i])
    {
      var field := fields[i];
      if !ValidFieldPath(field) {
        return false;
      }
      forall k | 0 <= k < |accepted|
        ensures StringsOverlap(field, accepted[k]) <==> Overlap(Split(accepted[k]), Split(field))
      {
        StringsOverlapIsPathOverlap(field, accepted[k]);
      }
      if exists k :: 0 <= k < |accepted| && StringsOverlap(field, accepted[k]) {
        return false;
      }
      accepted := accepted + [field];
    }
    assert fields[..|fields|] == fields;
    ok := true;
  }
}
