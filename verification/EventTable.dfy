/** The `events` table and the ordered range reads every consumer makes of it.

    A table maps `global_position` (the primary key) to its row.  `Select` is the
    meaning of `WHERE global_position > lo AND global_position <= hi AND keep(row)
    ORDER BY global_position ASC`; a `LIMIT k` is a prefix of it.  Positions come from
    a BIGSERIAL column, so the first one is 1.
*/
module EventTable {
  import opened Sequences

  /** What a caller supplies for one event: its CloudEvents type and its payload text. */
  datatype EventInput = EventInput(eventType: string, data: string)

  /** One stored row; `xid` is the id of the inserting transaction. */
  datatype Row = Row(stream: string, version: nat, event: EventInput, xid: nat)

  type Table = map<nat, Row>

  type Filter = Row -> bool

  function EveryRow(): Filter {
    (r: Row) => true
  }

  function InStream(stream: string): Filter {
    (r: Row) => r.stream == stream
  }

  /** The positions in (lo, hi] whose row is kept, ascending. */
  function Select(t: Table, keep: Filter, lo: int, hi: int): seq<nat> {
    if hi <= lo || hi <= 0 then []
    else Select(t, keep, lo, hi - 1) + if hi in t && keep(t[hi]) then [hi] else []
  }

  /** A sequence of positions filtered the way a loop over fetched rows filters it. */
  function Kept(t: Table, keep: Filter, ps: seq<nat>): seq<nat> {
    if ps == [] then []
    else
      var last := ps[|ps| - 1];
      Kept(t, keep, ps[..|ps| - 1]) + if last in t && keep(t[last]) then [last] else []
  }

  /** `SELECT MAX(global_position)`, with COALESCE to 0 on the empty table. */
  function MaxPosition(t: Table, hi: nat): nat {
    if hi == 0 then 0 else if hi in t then hi else MaxPosition(t, hi - 1)
  }

  /** Every position of the table lies in 1..hi. */
  ghost predicate Within(t: Table, hi: nat) {
    forall p :: p in t ==> 1 <= p <= hi
  }

  /** The two tables hold the same rows at the positions in (lo, hi]. */
  ghost predicate AgreeOn(t: Table, u: Table, lo: int, hi: int) {
    forall p :: lo < p <= hi ==> ((p in t <==> p in u) && (p in t ==> t[p] == u[p]))
  }

  // ---- Characterisation of Select ----

  /** Select lists exactly the kept positions of the range... */
  lemma {:induction false} SelectMembers(t: Table, keep: Filter, lo: int, hi: int)
    ensures forall p :: p in Select(t, keep, lo, hi) <==> 0 < p && lo < p <= hi && p in t && keep(t[p])
  {
    if hi <= lo || hi <= 0 {
    } else {
      SelectMembers(t, keep, lo, hi - 1);
    }
  }

  /** ...each once, in ascending order. */
  lemma {:induction false} SelectAscending(t: Table, keep: Filter, lo: int, hi: int)
    ensures Ascending(Select(t, keep, lo, hi))
  {
    if hi <= lo || hi <= 0 {
    } else {
      SelectAscending(t, keep, lo, hi - 1);
      SelectMembers(t, keep, lo, hi - 1);
      AscendingBelow(Select(t, keep, lo, hi - 1), hi);
    }
  }

  lemma AscendingBelow(init: seq<nat>, hi: nat)
    requires Ascending(init) && forall p :: p in init ==> p < hi
    ensures Ascending(init + [hi])
  {
    assert forall i :: 0 <= i < |init| ==> init[i] in init;
  }

  /** Consecutive ranges concatenate: the reason a cursor can resume anywhere. */
  lemma {:induction false} SelectSplit(t: Table, keep: Filter, lo: int, mid: int, hi: int)
    requires lo <= mid <= hi
    ensures Select(t, keep, lo, hi) == Select(t, keep, lo, mid) + Select(t, keep, mid, hi)
  {
    if hi <= mid || hi <= 0 {
      assert Select(t, keep, mid, hi) == [];
      if hi <= 0 {
        assert Select(t, keep, lo, hi) == Select(t, keep, lo, mid) == [];
      }
    } else {
      SelectSplit(t, keep, lo, mid, hi - 1);
    }
  }

  /** A range read depends on the rows of its range only. */
  lemma {:induction false} SelectFrame(t: Table, u: Table, keep: Filter, lo: int, hi: int)
    requires AgreeOn(t, u, lo, hi)
    ensures Select(t, keep, lo, hi) == Select(u, keep, lo, hi)
  {
    if hi <= lo || hi <= 0 {
    } else {
      SelectFrame(t, u, keep, lo, hi - 1);
    }
  }

  /** A filtered read is unchanged when only rows the filter rejects differ. */
  lemma {:induction false} SelectIgnores(t: Table, u: Table, keep: Filter, lo: int, hi: int)
    requires forall p :: lo < p <= hi ==> ((p in t && keep(t[p])) <==> (p in u && keep(u[p])))
    ensures Select(t, keep, lo, hi) == Select(u, keep, lo, hi)
  {
    if hi <= lo || hi <= 0 {
    } else {
      SelectIgnores(t, u, keep, lo, hi - 1);
    }
  }

  /** A non-empty LIMIT batch is the whole range up to its own last position. */
  lemma BatchIsRange(t: Table, keep: Filter, lo: int, hi: int, k: nat)
    requires 0 < k <= |Select(t, keep, lo, hi)|
    ensures var s := Select(t, keep, lo, hi);
            lo < s[k - 1] <= hi &&
            s[..k] == Select(t, keep, lo, s[k - 1]) &&
            s[k..] == Select(t, keep, s[k - 1], hi)
  {
    var s := Select(t, keep, lo, hi);
    var p := s[k - 1];
    SelectMembers(t, keep, lo, hi);
    assert p in s;
    SelectSplit(t, keep, lo, p, hi);
    var upTo := Select(t, keep, lo, p);
    assert upTo[|upTo| - 1] == p;
    SelectAscending(t, keep, lo, hi);
    assert s[|upTo| - 1] == p;
    assert |upTo| == k;
  }

  lemma KeptSnoc(t: Table, keep: Filter, ps: seq<nat>, p: nat)
    ensures Kept(t, keep, ps + [p]) == Kept(t, keep, ps) + if p in t && keep(t[p]) then [p] else []
  {
    var all := ps + [p];
    assert all[..|all| - 1] == ps;
  }

  lemma {:induction false} KeptConcat(t: Table, keep: Filter, ps: seq<nat>, qs: seq<nat>)
    ensures Kept(t, keep, ps + qs) == Kept(t, keep, ps) + Kept(t, keep, qs)
  {
    if qs == [] {
      assert ps + qs == ps;
    } else {
      var init, last := qs[..|qs| - 1], qs[|qs| - 1];
      KeptConcat(t, keep, ps, init);
      assert ps + qs == (ps + init) + [last];
      KeptSnoc(t, keep, ps + init, last);
    }
  }

  /** Filtering the unfiltered read equals the filtered read. */
  lemma {:induction false} KeptSelect(t: Table, keep: Filter, lo: int, hi: int)
    ensures Kept(t, keep, Select(t, EveryRow(), lo, hi)) == Select(t, keep, lo, hi)
  {
    if hi <= lo || hi <= 0 {
    } else {
      KeptSelect(t, keep, lo, hi - 1);
      var init := Select(t, EveryRow(), lo, hi - 1);
      if hi in t {
        KeptSnoc(t, keep, init, hi);
        assert Select(t, EveryRow(), lo, hi) == init + [hi];
      } else {
        assert Select(t, EveryRow(), lo, hi) == init;
      }
    }
  }

  lemma {:induction false} MaxPositionIsMax(t: Table, hi: nat)
    requires Within(t, hi)
    ensures MaxPosition(t, hi) <= hi
    ensures forall p :: p in t ==> p <= MaxPosition(t, hi)
    ensures MaxPosition(t, hi) > 0 ==> MaxPosition(t, hi) in t
  {
    if hi == 0 || hi in t {
    } else {
      MaxPositionIsMax(t, hi - 1);
    }
  }

  // ---- Streams ----

  /** The positions of one stream, in position order. */
  function StreamLog(t: Table, stream: string, hi: int): seq<nat> {
    Select(t, InStream(stream), 0, hi)
  }

  /** The stream's rows carry versions 1, 2, ... n in global-position order. */
  ghost predicate Numbered(t: Table, stream: string, hi: int) {
    var log := StreamLog(t, stream, hi);
    forall i :: 0 <= i < |log| ==> log[i] in t && t[log[i]].version == i + 1
  }

  /** `SELECT MAX(stream_version) ... WHERE stream_id = stream`, with NULL read as 0. */
  function MaxVersion(t: Table, stream: string, hi: int): nat {
    if hi <= 0 then 0
    else
      var rest := MaxVersion(t, stream, hi - 1);
      if hi in t && t[hi].stream == stream && t[hi].version > rest then t[hi].version else rest
  }

  /** On a numbered stream the version query returns the length of the stream. */
  lemma {:induction false} MaxVersionIsLength(t: Table, stream: string, hi: int)
    requires Numbered(t, stream, hi)
    ensures MaxVersion(t, stream, hi) == |StreamLog(t, stream, hi)|
  {
    if hi <= 0 {
    } else {
      var log, init := StreamLog(t, stream, hi), StreamLog(t, stream, hi - 1);
      assert forall i :: 0 <= i < |init| ==> init[i] == log[i];
      MaxVersionIsLength(t, stream, hi - 1);
      if hi in t && t[hi].stream == stream {
        assert log[|log| - 1] == hi;
      }
    }
  }

  /** A stream log does not see rows of other streams. */
  lemma StreamLogIgnores(t: Table, u: Table, stream: string, hi: int)
    requires forall p :: p in t && t[p].stream == stream ==> p in u && u[p] == t[p]
    requires forall p :: p in u && u[p].stream == stream ==> p in t && t[p] == u[p]
    ensures StreamLog(t, stream, hi) == StreamLog(u, stream, hi)
    ensures Numbered(t, stream, hi) <==> Numbered(u, stream, hi)
  {
    var keep := InStream(stream);
    forall p: int | 0 < p <= hi
      ensures (p in t && keep(t[p])) <==> (p in u && keep(u[p]))
    {
      if p in t && t[p].stream == stream {
        assert p in u;
      }
    }
    SelectIgnores(t, u, keep, 0, hi);
    SelectMembers(t, keep, 0, hi);
    SelectMembers(u, keep, 0, hi);
    var log := StreamLog(t, stream, hi);
    assert forall i :: 0 <= i < |log| ==> log[i] in log;
  }

  /** Inserting the next position with the next version extends a numbered stream. */
  lemma NumberedExtend(t: Table, row: Row, stream: string, hi: nat)
    requires Within(t, hi)
    requires Numbered(t, stream, hi)
    requires row.stream == stream ==> row.version == |StreamLog(t, stream, hi)| + 1
    ensures Numbered(t[hi + 1 := row], stream, hi + 1)
    ensures StreamLog(t[hi + 1 := row], stream, hi + 1)
         == StreamLog(t, stream, hi) + if row.stream == stream then [hi + 1] else []
  {
    var u := t[hi + 1 := row];
    SelectFrame(t, u, InStream(stream), 0, hi);
    SelectMembers(t, InStream(stream), 0, hi);
    var log := StreamLog(t, stream, hi);
    assert forall i :: 0 <= i < |log| ==> log[i] in log;
  }

  /** Handing out a position without using it changes no stream. */
  lemma NumberedGap(t: Table, stream: string, hi: nat)
    requires hi + 1 !in t
    ensures StreamLog(t, stream, hi + 1) == StreamLog(t, stream, hi)
    ensures Numbered(t, stream, hi) <==> Numbered(t, stream, hi + 1)
  {
  }
}
