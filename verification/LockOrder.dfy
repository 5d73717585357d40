/** The order in which transactions take locks, when each of them is one append, one
    revocation of a key, or one certification. */
module LockOrder {
  import opened Options

  // ---- The order of key ids ----

  /** left < right on JavaScript strings: by code unit, a proper prefix first. */
  predicate Less(left: string, right: string) {
    right != "" && (left == "" || left[0] < right[0] || (left[0] == right[0] && Less(left[1..], right[1..])))
  }

  lemma {:induction false} LessTransitive(a: string, b: string, c: string)
    requires Less(a, b) && Less(b, c)
    ensures Less(a, c)
  {
    if a != "" && a[0] == b[0] && b[0] == c[0] {
      LessTransitive(a[1..], b[1..], c[1..]);
    }
  }

  lemma {:induction false} LessTotal(a: string, b: string)
    ensures (Less(a, b) || Less(b, a)) <==> a != b
    ensures !(Less(a, b) && Less(b, a))
  {
    if a != "" && b != "" && a[0] == b[0] {
      LessTotal(a[1..], b[1..]);
      assert a == [a[0]] + a[1..] && b == [b[0]] + b[1..];
    }
  }

  ghost predicate AscendingKeys(ids: seq<string>) {
    forall i, k :: 0 <= i < k < |ids| ==> Less(ids[i], ids[k])
  }

  function InsertKey(ids: seq<string>, id: string): seq<string> {
    if ids == [] then [id]
    else if ids[0] == id then ids
    else if Less(id, ids[0]) then [id] + ids
    else [ids[0]] + InsertKey(ids[1..], id)
  }

  /** [...new Set(keyIds)].sort(...). */
  function SortedDistinct(keyIds: seq<string>): seq<string> {
    if keyIds == [] then [] else InsertKey(SortedDistinct(keyIds[1..]), keyIds[0])
  }

  lemma {:induction false} InsertKeySorted(ids: seq<string>, id: string)
    requires AscendingKeys(ids)
    ensures AscendingKeys(InsertKey(ids, id))
    ensures forall k :: k in InsertKey(ids, id) <==> k in ids || k == id
  {
    if ids == [] || ids[0] == id {
    } else if Less(id, ids[0]) {
      forall k | 0 <= k < |ids| ensures Less(id, ids[k]) {
        if k > 0 {
          LessTransitive(id, ids[0], ids[k]);
        }
      }
    } else {
      InsertKeySorted(ids[1..], id);
      LessTotal(id, ids[0]);
      var rest := InsertKey(ids[1..], id);
      assert ids == [ids[0]] + ids[1..];
      forall k | 0 <= k < |rest| ensures Less(ids[0], rest[k]) {
        assert rest[k] in rest;
        if rest[k] != id {
          var m :| 0 <= m < |ids[1..]| && ids[1..][m] == rest[k];
          assert rest[k] == ids[m + 1];
        }
      }
    }
  }

  lemma {:induction false} SortedDistinctIsSorted(keyIds: seq<string>)
    ensures AscendingKeys(SortedDistinct(keyIds))
    ensures forall k :: k in SortedDistinct(keyIds) <==> k in keyIds
  {
    if keyIds != [] {
      SortedDistinctIsSorted(keyIds[1..]);
      InsertKeySorted(SortedDistinct(keyIds[1..]), keyIds[0]);
      assert keyIds == [keyIds[0]] + keyIds[1..];
    }
  }

  // ---- Locks and transactions ----

  datatype Lock =
    | Stream(hash: int)                // pg_advisory_xact_lock of the stream's hash
    | KeyRow(keyId: string)            // the row lock of a crypto key
    | Reader                           // the certifiers' lock
    | Fence                            // the position fence
    | IdempotencyKey(key: string)      // the unique index entry of an uncommitted key

  datatype Request = Request(lock: Lock, exclusive: bool, waits: bool)

  datatype Transaction =
    | Append(hash: int, keyIds: seq<string>, idempotencyKey: Option<string>)
    | Revoke(keyId: string)
    | Certify

  function KeyRequests(ids: seq<string>): seq<Request> {
    seq(|ids|, i requires 0 <= i < |ids| => Request(KeyRow(ids[i]), true, true))
  }

  /** What a transaction asks for, in order. */
  function Plan(t: Transaction): seq<Request> {
    match t
    case Append(hash, keyIds, key) =>
      [Request(Stream(hash), true, true)] + KeyRequests(SortedDistinct(keyIds)) + [Request(Fence, false, true)] +
      (if key.Some? then [Request(IdempotencyKey(key.value), true, true)] else [])
    case Revoke(keyId) => [Request(KeyRow(keyId), true, true)]
    case Certify => [Request(Reader, true, true), Request(Fence, true, false)]
  }

  function Level(lock: Lock): nat {
    match lock
    case Stream(_) => 0
    case KeyRow(_) => 1
    case Reader => 2
    case Fence => 3
    case IdempotencyKey(_) => 4
  }

  /** The ranking: by level, and key rows by id. */
  predicate Below(a: Lock, b: Lock) {
    Level(a) < Level(b) || (a.KeyRow? && b.KeyRow? && Less(a.keyId, b.keyId))
  }

  lemma BelowTransitive(a: Lock, b: Lock, c: Lock)
    requires Below(a, b) && Below(b, c)
    ensures Below(a, c)
  {
    if a.KeyRow? && b.KeyRow? && c.KeyRow? {
      LessTransitive(a.keyId, b.keyId, c.keyId);
    }
  }

  lemma BelowIrreflexive(a: Lock)
    ensures !Below(a, a)
  {
    if a.KeyRow? {
      LessTotal(a.keyId, a.keyId);
    }
  }

  /** Every transaction asks in ascending rank. */
  lemma PlanAscends(t: Transaction, i: nat, k: nat)
    requires i < k < |Plan(t)|
    ensures Below(Plan(t)[i].lock, Plan(t)[k].lock)
  {
    if t.Append? {
      SortedDistinctIsSorted(t.keyIds);
    }
  }

  /** And asks for exactly this: an append for its stream, every key of its events, the fence with
      the other writers, and its idempotency key if it has one; a revocation for its key; a
      certification for the certifiers' lock and, without waiting, the whole fence. */
  lemma PlanAsksFor(t: Transaction, r: Request)
    ensures r in Plan(t) <==>
            match t
            case Append(hash, keyIds, key) =>
              || r == Request(Stream(hash), true, true)
              || (r.lock.KeyRow? && r.lock.keyId in keyIds && r.exclusive && r.waits)
              || r == Request(Fence, false, true)
              || (key.Some? && r == Request(IdempotencyKey(key.value), true, true))
            case Revoke(keyId) => r == Request(KeyRow(keyId), true, true)
            case Certify => r == Request(Reader, true, true) || r == Request(Fence, true, false)
  {
    if t.Append? {
      SortedDistinctIsSorted(t.keyIds);
      var ids := SortedDistinct(t.keyIds);
      KeyRequestsOf(ids, r);
      var front, keys, back := [Request(Stream(t.hash), true, true)], KeyRequests(ids),
        [Request(Fence, false, true)] +
        (if t.idempotencyKey.Some? then [Request(IdempotencyKey(t.idempotencyKey.value), true, true)] else []);
      assert Plan(t) == front + keys + back;
    }
  }

  lemma KeyRequestsOf(ids: seq<string>, r: Request)
    ensures r in KeyRequests(ids) <==> r.lock.KeyRow? && r.lock.keyId in ids && r.exclusive && r.waits
  {
    if r.lock.KeyRow? && r.lock.keyId in ids && r.exclusive && r.waits {
      var i :| 0 <= i < |ids| && ids[i] == r.lock.keyId;
      assert KeyRequests(ids)[i] == r;
    }
  }

  // ---- Running transactions ----

  /** A transaction, how far through its plan it is, and what it holds. */
  datatype Process = Process(transaction: Transaction, next: nat, held: seq<Request>)

  type State = map<nat, Process>

  datatype Step =
    | Start(p: nat, transaction: Transaction)
    | Acquire(p: nat)                  // the next request is granted, or a try is refused
    | End(p: nat)                      // commit or rollback, at any point

  predicate Conflicts(a: Request, b: Request) {
    a.lock == b.lock && (a.exclusive || b.exclusive)
  }

  predicate HoldsAgainst(x: Process, r: Request) {
    exists i :: 0 <= i < |x.held| && Conflicts(x.held[i], r)
  }

  ghost predicate Granted(s: State, p: nat, r: Request) {
    forall q :: q in s && q != p ==> !HoldsAgainst(s[q], r)
  }

  predicate Unfinished(x: Process) {
    x.next < |Plan(x.transaction)|
  }

  function NextRequest(x: Process): Request
    requires Unfinished(x)
  {
    Plan(x.transaction)[x.next]
  }

  ghost predicate Enabled(s: State, a: Step) {
    match a
    case Start(p, _) => p !in s
    case Acquire(p) =>
      p in s && Unfinished(s[p]) && (NextRequest(s[p]).waits ==> Granted(s, p, NextRequest(s[p])))
    case End(p) => p in s
  }

  ghost function Apply(s: State, a: Step): State
    requires Enabled(s, a)
  {
    match a
    case Start(p, t) => s[p := Process(t, 0, [])]
    case Acquire(p) =>
      var x := s[p];
      s[p := x.(next := x.next + 1, held := if Granted(s, p, NextRequest(x)) then x.held + [NextRequest(x)] else x.held)]
    case End(p) => s - {p}
  }

  ghost predicate Runs(s: State, steps: seq<Step>)
    decreases |steps|
  {
    steps == [] || (Enabled(s, steps[0]) && Runs(Apply(s, steps[0]), steps[1..]))
  }

  ghost function After(s: State, steps: seq<Step>): State
    requires Runs(s, steps)
    decreases |steps|
  {
    if steps == [] then s else After(Apply(s, steps[0]), steps[1..])
  }

  ghost predicate IsReachable(s: State) {
    exists steps :: Runs(map[], steps) && After(map[], steps) == s
  }

  /** What is held was asked for earlier in the plan. */
  ghost predicate HeldFromPlan(x: Process) {
    x.next <= |Plan(x.transaction)| && forall i :: 0 <= i < |x.held| ==> Asked(x, x.held[i])
  }

  ghost predicate Asked(x: Process, r: Request)
    requires x.next <= |Plan(x.transaction)|
  {
    exists k :: 0 <= k < x.next && Plan(x.transaction)[k] == r
  }

  ghost predicate Inv(s: State) {
    forall p :: p in s ==> HeldFromPlan(s[p])
  }

  lemma AcquireKeepsHeld(x: Process, y: Process)
    requires HeldFromPlan(x) && Unfinished(x) && y.transaction == x.transaction && y.next == x.next + 1
    requires y.held == x.held || y.held == x.held + [NextRequest(x)]
    ensures HeldFromPlan(y)
  {
    forall i | 0 <= i < |y.held| ensures Asked(y, y.held[i]) {
      if i < |x.held| {
        assert Asked(x, x.held[i]);
        var k :| 0 <= k < x.next && Plan(x.transaction)[k] == x.held[i];
        assert Plan(y.transaction)[k] == y.held[i];
      } else {
        assert Plan(y.transaction)[x.next] == y.held[i];
      }
    }
  }

  lemma StepKeepsInv(s: State, a: Step)
    requires Inv(s) && Enabled(s, a)
    ensures Inv(Apply(s, a))
  {
    hide Plan, Granted, HeldFromPlan;
    match a
    case Acquire(p) => AcquireKeepsHeld(s[p], Apply(s, a)[p]);
    case Start(p, t) => StartHolds(t);
    case End(p) =>
  }

  lemma StartHolds(t: Transaction)
    ensures HeldFromPlan(Process(t, 0, []))
  {
  }

  lemma {:induction false} RunKeepsInv(s: State, steps: seq<Step>)
    requires Inv(s) && Runs(s, steps)
    ensures Inv(After(s, steps))
    decreases |steps|
  {
    hide Inv, Enabled, Apply;
    if steps != [] {
      StepKeepsInv(s, steps[0]);
      RunKeepsInv(Apply(s, steps[0]), steps[1..]);
    }
  }

  lemma ReachableInv(s: State)
    requires IsReachable(s)
    ensures Inv(s)
  {
    hide Runs, After;
    var steps :| Runs(map[], steps) && After(map[], steps) == s;
    RunKeepsInv(map[], steps);
  }

  // ---- Holding ----

  /** What a transaction has waited for it holds. */
  ghost predicate HoldsAsked(x: Process) {
    x.next <= |Plan(x.transaction)| &&
    forall k :: 0 <= k < x.next && Plan(x.transaction)[k].waits ==> Plan(x.transaction)[k] in x.held
  }

  /** No two transactions hold conflicting locks. */
  ghost predicate Exclusive(s: State) {
    forall p, q, i :: p in s && q in s && p != q && 0 <= i < |s[p].held| ==> !HoldsAgainst(s[q], s[p].held[i])
  }

  ghost predicate HoldInv(s: State) {
    Exclusive(s) && forall p :: p in s ==> HoldsAsked(s[p])
  }

  lemma AcquireKeepsHolding(x: Process, y: Process)
    requires HoldsAsked(x) && Unfinished(x) && y.transaction == x.transaction && y.next == x.next + 1
    requires y.held == x.held || y.held == x.held + [NextRequest(x)]
    requires NextRequest(x).waits ==> NextRequest(x) in y.held
    ensures HoldsAsked(y)
  {
    hide Plan;
  }

  lemma AcquireKeepsExclusive(s: State, p: nat)
    requires Exclusive(s) && Enabled(s, Acquire(p))
    ensures Exclusive(Apply(s, Acquire(p)))
  {
    hide Plan;
    var s' := Apply(s, Acquire(p));
    forall a, b, i | a in s' && b in s' && a != b && 0 <= i < |s'[a].held| ensures !HoldsAgainst(s'[b], s'[a].held[i]) {
      var r := s'[a].held[i];
      forall k | 0 <= k < |s'[b].held| ensures !Conflicts(s'[b].held[k], r) {
        if i < |s[a].held| && k < |s[b].held| {
          assert !HoldsAgainst(s[b], s[a].held[i]);
        } else if i < |s[a].held| {
          assert !HoldsAgainst(s[a], s'[b].held[k]);
          assert !Conflicts(s[a].held[i], s'[b].held[k]);
        } else {
          assert !HoldsAgainst(s[b], r);
        }
      }
    }
  }

  lemma StepKeepsHolding(s: State, a: Step)
    requires HoldInv(s) && Enabled(s, a)
    ensures HoldInv(Apply(s, a))
  {
    hide Plan;
    if a.Acquire? {
      var x, y := s[a.p], Apply(s, a)[a.p];
      assert y.held == x.held + [NextRequest(x)] ==> y.held[|x.held|] == NextRequest(x);
      AcquireKeepsExclusive(s, a.p);
      hide Exclusive, Granted;
      AcquireKeepsHolding(x, y);
    }
  }

  lemma {:induction false} RunKeepsHolding(s: State, steps: seq<Step>)
    requires HoldInv(s) && Runs(s, steps)
    ensures HoldInv(After(s, steps))
    decreases |steps|
  {
    hide HoldInv, Enabled, Apply;
    if steps != [] {
      StepKeepsHolding(s, steps[0]);
      RunKeepsHolding(Apply(s, steps[0]), steps[1..]);
    }
  }

  /** Mutual exclusion: in every reachable state a transaction holds whatever it has waited for, to
      its end, and no two transactions hold conflicting locks. */
  lemma LocksExclude(s: State, p: nat, q: nat, r: Request)
    requires IsReachable(s) && p in s && q in s && p != q
    ensures !Unfinished(s[p]) && r.waits && r in Plan(s[p].transaction) ==> r in s[p].held
    ensures r in s[p].held ==> forall i :: 0 <= i < |s[q].held| ==> !Conflicts(s[q].held[i], r)
  {
    hide Runs, After, Plan;
    var steps :| Runs(map[], steps) && After(map[], steps) == s;
    RunKeepsHolding(map[], steps);
    assert HoldsAsked(s[p]);
    if r in s[p].held {
      var i :| 0 <= i < |s[p].held| && s[p].held[i] == r;
      assert !HoldsAgainst(s[q], s[p].held[i]);
    }
  }

  // ---- Waiting ----

  /** p is stopped at a request that q's locks conflict with. */
  ghost predicate WaitsFor(s: State, p: nat, q: nat) {
    p in s && q in s && p != q && Unfinished(s[p]) && NextRequest(s[p]).waits && HoldsAgainst(s[q], NextRequest(s[p]))
  }

  /** A chain of transactions, each waiting for the next. */
  ghost predicate WaitChain(s: State, chain: seq<nat>) {
    forall i :: 0 <= i < |chain| - 1 ==> WaitsFor(s, chain[i], chain[i + 1])
  }

  /** Whoever is waited for and still asks, asks for something of higher rank. */
  lemma WaitAscends(s: State, p: nat, q: nat)
    requires Inv(s) && WaitsFor(s, p, q)
    ensures Unfinished(s[q]) ==> Below(NextRequest(s[p]).lock, NextRequest(s[q]).lock)
  {
    if Unfinished(s[q]) {
      var i :| 0 <= i < |s[q].held| && Conflicts(s[q].held[i], NextRequest(s[p]));
      assert HeldFromPlan(s[q]) && Asked(s[q], s[q].held[i]);
      var k :| 0 <= k < s[q].next && Plan(s[q].transaction)[k] == s[q].held[i];
      PlanAscends(s[q].transaction, k, s[q].next);
    }
  }

  lemma {:induction false} ChainAscends(s: State, chain: seq<nat>)
    requires Inv(s) && |chain| >= 2 && WaitChain(s, chain)
    ensures var first, last := chain[0], chain[|chain| - 1];
            first in s && Unfinished(s[first]) && last in s &&
            (Unfinished(s[last]) ==> Below(NextRequest(s[first]).lock, NextRequest(s[last]).lock))
    decreases |chain|
  {
    var n := |chain|;
    hide Plan, HoldsAgainst, Below;
    assert WaitsFor(s, chain[n - 2], chain[n - 1]);
    WaitAscends(s, chain[n - 2], chain[n - 1]);
    if n > 2 {
      var shorter := chain[..n - 1];
      assert WaitChain(s, shorter);
      ChainAscends(s, shorter);
      if Unfinished(s[chain[n - 1]]) {
        BelowTransitive(NextRequest(s[chain[0]]).lock, NextRequest(s[chain[n - 2]]).lock, NextRequest(s[chain[n - 1]]).lock);
      }
    }
  }

  /** The wait-for graph has no cycle in any reachable state. */
  lemma NoWaitCycle(s: State, chain: seq<nat>)
    requires IsReachable(s) && |chain| >= 2 && WaitChain(s, chain)
    ensures chain[0] != chain[|chain| - 1]
  {
    ReachableInv(s);
    ChainAscends(s, chain);
    if chain[0] == chain[|chain| - 1] {
      BelowIrreflexive(NextRequest(s[chain[0]]).lock);
    }
  }

  /** A certifier waits for certifiers only. */
  lemma CertifierNeverWaitsForWriter(s: State, p: nat, q: nat)
    requires IsReachable(s) && WaitsFor(s, p, q) && s[p].transaction.Certify?
    ensures s[q].transaction.Certify?
  {
    ReachableInv(s);
    var i :| 0 <= i < |s[q].held| && Conflicts(s[q].held[i], NextRequest(s[p]));
    assert HeldFromPlan(s[q]) && Asked(s[q], s[q].held[i]);
    var k :| 0 <= k < s[q].next && Plan(s[q].transaction)[k] == s[q].held[i];
  }

  /** The transactions stopped at requests of higher rank. */
  ghost function Higher(s: State, lock: Lock): set<nat> {
    set p | p in s && Unfinished(s[p]) && Below(lock, NextRequest(s[p]).lock)
  }

  ghost predicate CanMove(s: State, p: nat) {
    p in s && (!Unfinished(s[p]) || Enabled(s, Acquire(p)))
  }

  /** Following the waits from any transaction leads to one that is not waiting. */
  lemma {:induction false} SomeoneMovesFrom(s: State, p: nat) returns (q: nat)
    requires Inv(s) && p in s
    ensures CanMove(s, q)
    decreases if Unfinished(s[p]) then 1 + |Higher(s, NextRequest(s[p]).lock)| else 0
  {
    q := p;
    if !CanMove(s, p) {
      var next: nat :| next in s && next != p && HoldsAgainst(s[next], NextRequest(s[p]));
      if Unfinished(s[next]) {
        WaitAscends(s, p, next);
        HigherShrinks(s, p, next);
      }
      q := SomeoneMovesFrom(s, next);
    }
  }

  lemma HigherShrinks(s: State, p: nat, q: nat)
    requires p in s && q in s && Unfinished(s[p]) && Unfinished(s[q]) && Below(NextRequest(s[p]).lock, NextRequest(s[q]).lock)
    ensures |Higher(s, NextRequest(s[q]).lock)| < |Higher(s, NextRequest(s[p]).lock)|
  {
    var small, large := Higher(s, NextRequest(s[q]).lock), Higher(s, NextRequest(s[p]).lock);
    hide Plan, Below;
    forall x | x in small ensures x in large {
      BelowTransitive(NextRequest(s[p]).lock, NextRequest(s[q]).lock, NextRequest(s[x]).lock);
    }
    BelowIrreflexive(NextRequest(s[q]).lock);
    assert q in large && q !in small;
    SubsetSmaller(small, large, q);
  }

  lemma SubsetSmaller(small: set<nat>, large: set<nat>, x: nat)
    requires small <= large && x in large && x !in small
    ensures |small| < |large|
  {
    var rest := large - {x};
    assert small <= rest;
    assert large == rest + {x};
    SubsetSize(small, rest);
  }

  lemma {:induction false} SubsetSize(small: set<nat>, large: set<nat>)
    requires small <= large
    ensures |small| <= |large|
  {
    if small != {} {
      var x :| x in small;
      SubsetSize(small - {x}, large - {x});
    }
  }

  /** No deadlock: while transactions are running, one of them can go on or has nothing left
      to ask for. */
  lemma NoDeadlock(s: State)
    requires IsReachable(s) && s != map[]
    ensures exists p :: CanMove(s, p)
  {
    ReachableInv(s);
    var p :| p in s;
    var q := SomeoneMovesFrom(s, p);
  }
}
