/** The registry of schema upcasters: one ascending pass over a type's upcasters, against
    following the edges from version to version. */
module UpcasterRegistry {
  import opened Options

  const MAX_SAFE_INTEGER := 9007199254740991

  /** An edge from one schema version to a later one; Error stands for an upcast that throws. */
  datatype Upcaster<!D> = Upcaster(eventType: string, from: int, to: int, upcast: D -> Result<D>)

  predicate SafeInteger(n: int) {
    -MAX_SAFE_INTEGER <= n <= MAX_SAFE_INTEGER
  }

  predicate WellFormed<D>(u: Upcaster<D>) {
    u.eventType != "" && SafeInteger(u.from) && 1 <= u.from && SafeInteger(u.to) && u.from < u.to
  }

  type Chain<!D> = seq<Upcaster<D>>

  predicate Edges<D>(chain: Chain<D>) {
    forall i :: 0 <= i < |chain| ==> chain[i].from < chain[i].to
  }

  /** Ascending by the version they start from, no two from the same one. */
  predicate Sorted<D>(chain: Chain<D>) {
    forall i, j :: 0 <= i < j < |chain| ==> chain[i].from < chain[j].from
  }

  predicate HasFrom<D>(chain: Chain<D>, version: int) {
    exists i :: 0 <= i < |chain| && chain[i].from == version
  }

  // ---- Registration ----

  /** push, then a stable sort by from: the new entry goes behind those that are not greater. */
  function Inserted<D>(chain: Chain<D>, u: Upcaster<D>): Chain<D> {
    if chain == [] || chain[|chain| - 1].from <= u.from then chain + [u]
    else Inserted(chain[..|chain| - 1], u) + [chain[|chain| - 1]]
  }

  lemma {:induction false} InsertedMembers<D>(chain: Chain<D>, u: Upcaster<D>)
    ensures multiset(Inserted(chain, u)) == multiset(chain) + multiset{u}
    ensures forall e :: e in Inserted(chain, u) <==> e in chain || e == u
  {
    if chain != [] && chain[|chain| - 1].from > u.from {
      var init, last := chain[..|chain| - 1], chain[|chain| - 1];
      assert chain == init + [last];
      InsertedMembers(init, u);
    }
  }

  lemma {:induction false} InsertedIsSorted<D>(chain: Chain<D>, u: Upcaster<D>)
    requires Sorted(chain) && !HasFrom(chain, u.from)
    ensures Sorted(Inserted(chain, u))
  {
    if chain != [] && chain[|chain| - 1].from > u.from {
      var init, last := chain[..|chain| - 1], chain[|chain| - 1];
      InsertedIsSorted(init, u);
      InsertedMembers(init, u);
      var inner := Inserted(init, u);
      forall i | 0 <= i < |inner| ensures inner[i].from < last.from {
        assert inner[i] in inner;
        if inner[i] != u {
          assert inner[i] in init;
        }
      }
    }
  }

  /** The order of registration leaves no trace: a sorted chain is determined by its entries. */
  lemma {:induction false} RegistrationOrderIrrelevant<D>(a: Chain<D>, b: Chain<D>)
    requires Sorted(a) && Sorted(b) && forall e :: e in a <==> e in b
    ensures a == b
  {
    if a == [] || b == [] {
      HasMember(a);
      HasMember(b);
    } else {
      LastIsCommon(a, b);
      var x, y := a[..|a| - 1], b[..|b| - 1];
      InitMembers(a);
      InitMembers(b);
      forall e: Upcaster<D> ensures e in x <==> e in y {
        assert e in a <==> e in b;
        assert e in x <==> e in a && e != a[|a| - 1];
        assert e in y <==> e in b && e != b[|b| - 1];
      }
      RegistrationOrderIrrelevant(x, y);
    }
  }

  lemma HasMember<D>(a: Chain<D>)
    ensures a != [] ==> exists e :: e in a
  {
    if a != [] {
      assert a[0] in a;
    }
  }

  lemma LastIsCommon<D>(a: Chain<D>, b: Chain<D>)
    requires Sorted(a) && Sorted(b) && a != [] && b != [] && forall e :: e in a <==> e in b
    ensures a[|a| - 1] == b[|b| - 1]
  {
    assert a[|a| - 1] in a && b[|b| - 1] in b;
    var i :| 0 <= i < |b| && b[i] == a[|a| - 1];
    var j :| 0 <= j < |a| && a[j] == b[|b| - 1];
  }

  lemma InitMembers<D>(a: Chain<D>)
    requires Sorted(a) && a != []
    ensures Sorted(a[..|a| - 1])
    ensures forall e :: e in a[..|a| - 1] <==> e in a && e != a[|a| - 1]
  {
  }

  // ---- The pass and the graph ----

  datatype Step<!D> = Step(version: int, data: D)

  /** One iteration of the loop. */
  function Take<D>(u: Upcaster<D>, at: Step<D>): Result<Step<D>> {
    if u.from != at.version then Ok(at)
    else
      match u.upcast(at.data)
      case Ok(data) => Ok(Step(u.to, data))
      case Error(message) => Error(message)
  }

  /** The loop over the first k upcasters. */
  function Pass<D>(chain: Chain<D>, k: nat, start: Step<D>): Result<Step<D>>
    requires k <= |chain|
  {
    if k == 0 then Ok(start)
    else
      match Pass(chain, k - 1, start)
      case Error(message) => Error(message)
      case Ok(at) => Take(chain[k - 1], at)
  }

  /** The versions the pass goes through, whatever the upcasts do with the data. */
  function Reached<D>(chain: Chain<D>, k: nat, version: int): int
    requires k <= |chain|
  {
    if k == 0 then version
    else
      var at := Reached(chain, k - 1, version);
      if chain[k - 1].from == at then chain[k - 1].to else at
  }

  /** Edges of the chain, one starting where the previous one ended. */
  ghost predicate IsPath<D>(chain: Chain<D>, version: int, path: Chain<D>) {
    && (forall i :: 0 <= i < |path| ==> path[i] in chain)
    && (path != [] ==> path[0].from == version)
    && (forall i :: 0 < i < |path| ==> path[i].from == path[i - 1].to)
  }

  ghost function EndOf<D>(version: int, path: Chain<D>): int {
    if path == [] then version else path[|path| - 1].to
  }

  /** A path that no edge continues. */
  ghost predicate IsFullPath<D>(chain: Chain<D>, version: int, path: Chain<D>) {
    IsPath(chain, version, path) && !HasFrom(chain, EndOf(version, path))
  }

  /** The data taken along a path, edge by edge. */
  function Along<D>(path: Chain<D>, data: D): Result<D> {
    if path == [] then Ok(data)
    else
      match Along(path[..|path| - 1], data)
      case Error(message) => Error(message)
      case Ok(value) => path[|path| - 1].upcast(value)
  }

  /** The edges the pass takes among the first k. */
  function Taken<D>(chain: Chain<D>, k: nat, version: int): Chain<D>
    requires k <= |chain|
  {
    if k == 0 then []
    else if chain[k - 1].from == Reached(chain, k - 1, version) then Taken(chain, k - 1, version) + [chain[k - 1]]
    else Taken(chain, k - 1, version)
  }

  lemma {:induction false} TakenIsPath<D>(chain: Chain<D>, k: nat, version: int)
    requires k <= |chain|
    ensures IsPath(chain, version, Taken(chain, k, version))
    ensures EndOf(version, Taken(chain, k, version)) == Reached(chain, k, version)
  {
    if k > 0 {
      TakenIsPath(chain, k - 1, version);
    }
  }

  /** After k upcasters nothing among them starts where the pass stands. */
  lemma {:induction false} NothingSkipped<D>(chain: Chain<D>, k: nat, version: int)
    requires Sorted(chain) && Edges(chain) && k <= |chain|
    ensures forall i :: 0 <= i < k ==> chain[i].from != Reached(chain, k, version)
  {
    if k > 0 {
      NothingSkipped(chain, k - 1, version);
    }
  }

  lemma {:induction false} PassIsAlong<D>(chain: Chain<D>, k: nat, start: Step<D>)
    requires k <= |chain|
    ensures var along := Along(Taken(chain, k, start.version), start.data);
            if along.Ok? then Pass(chain, k, start) == Ok(Step(Reached(chain, k, start.version), along.value))
            else Pass(chain, k, start) == Error(along.message)
  {
    if k > 0 {
      PassIsAlong(chain, k - 1, start);
      var before := Taken(chain, k - 1, start.version);
      assert (before + [chain[k - 1]])[..|before|] == before;
    }
  }

  /** There is one full path from a version. */
  lemma {:induction false} FullPathUnique<D>(chain: Chain<D>, version: int, p: Chain<D>, q: Chain<D>)
    requires Sorted(chain) && IsFullPath(chain, version, p) && IsFullPath(chain, version, q)
    ensures p == q
    decreases |p|
  {
    if p == [] || q == [] {
      assert p != [] ==> p[0] in chain && HasFrom(chain, version);
      assert q != [] ==> q[0] in chain && HasFrom(chain, version);
    } else {
      assert p[0] in chain && q[0] in chain;
      var i :| 0 <= i < |chain| && chain[i] == p[0];
      var k :| 0 <= k < |chain| && chain[k] == q[0];
      assert i == k;
      TailIsFullPath(chain, version, p);
      TailIsFullPath(chain, version, q);
      FullPathUnique(chain, p[0].to, p[1..], q[1..]);
      assert p == [p[0]] + p[1..] && q == [q[0]] + q[1..];
    }
  }

  lemma TailIsFullPath<D>(chain: Chain<D>, version: int, p: Chain<D>)
    requires IsFullPath(chain, version, p) && p != []
    ensures IsFullPath(chain, p[0].to, p[1..])
  {
    var t := p[1..];
    forall i | 0 < i < |t| ensures t[i].from == t[i - 1].to {
      assert p[i + 1].from == p[i].to;
    }
  }

  /** One pass is graph following: whatever full path leads on from the stored version, the
      pass ends where it ends, with the data taken along it. */
  lemma OnePassFollowsEdges<D>(chain: Chain<D>, start: Step<D>, path: Chain<D>)
    requires Sorted(chain) && Edges(chain) && IsFullPath(chain, start.version, path)
    ensures Reached(chain, |chain|, start.version) == EndOf(start.version, path)
    ensures var along := Along(path, start.data);
            if along.Ok? then Pass(chain, |chain|, start) == Ok(Step(EndOf(start.version, path), along.value))
            else Pass(chain, |chain|, start) == Error(along.message)
  {
    TakenIsPath(chain, |chain|, start.version);
    NothingSkipped(chain, |chain|, start.version);
    FullPathUnique(chain, start.version, path, Taken(chain, |chain|, start.version));
    PassIsAlong(chain, |chain|, start);
  }

  /** Such a path always exists. */
  lemma FullPathExists<D>(chain: Chain<D>, version: int)
    requires Sorted(chain) && Edges(chain)
    ensures exists path :: IsFullPath(chain, version, path)
  {
    TakenIsPath(chain, |chain|, version);
    NothingSkipped(chain, |chain|, version);
    assert IsFullPath(chain, version, Taken(chain, |chain|, version));
  }

  // ---- Completeness ----

  /** Math.max over the versions the upcasters lead to. */
  function Latest<D>(chain: Chain<D>): (latest: int)
    requires chain != []
    ensures forall i :: 0 <= i < |chain| ==> chain[i].to <= latest
    ensures exists i :: 0 <= i < |chain| && chain[i].to == latest
  {
    if |chain| == 1 then chain[0].to
    else
      var rest := Latest(chain[..|chain| - 1]);
      if rest < chain[|chain| - 1].to then chain[|chain| - 1].to else rest
  }

  /** assertCompleteChain: false stands for the error it throws. */
  predicate CompleteChain<D>(chain: Chain<D>, stored: int, reached: int)
    requires chain != []
  {
    !(stored < Latest(chain) && reached < Latest(chain))
  }

  /** The check passes exactly when the path ends at the later of the stored and the latest
      version. */
  lemma CompleteMeansArrived<D>(chain: Chain<D>, stored: int, path: Chain<D>)
    requires chain != [] && Edges(chain) && IsFullPath(chain, stored, path)
    ensures CompleteChain(chain, stored, EndOf(stored, path)) <==>
            EndOf(stored, path) == if stored < Latest(chain) then Latest(chain) else stored
  {
    if path != [] {
      assert path[|path| - 1] in chain && path[0] in chain;
      PathRises(chain, stored, path);
    }
  }

  lemma {:induction false} PathRises<D>(chain: Chain<D>, version: int, path: Chain<D>)
    requires Edges(chain) && IsPath(chain, version, path)
    ensures version <= EndOf(version, path) && (path != [] ==> version < EndOf(version, path))
    decreases |path|
  {
    if path != [] {
      var init, last := path[..|path| - 1], path[|path| - 1];
      assert last in chain;
      PathRises(chain, version, init);
    }
  }

  /** The registry. */
  class Registry<!D> {
    var upcasters: map<string, Chain<D>>

    ghost predicate Valid()
      reads this
    {
      forall t :: t in upcasters ==> upcasters[t] != [] && Sorted(upcasters[t]) && Edges(upcasters[t])
    }

    function ChainFor(eventType: string): Chain<D>
      reads this
    {
      if eventType in upcasters then upcasters[eventType] else []
    }

    constructor ()
      ensures Valid() && upcasters == map[]
    {
      upcasters := map[];
    }

    /** register: false stands for the error of a malformed or duplicate upcaster. */
    method Register(u: Upcaster<D>) returns (ok: bool)
      requires Valid()
      modifies this
      ensures Valid()
      ensures ok <==> WellFormed(u) && !HasFrom(old(ChainFor(u.eventType)), u.from)
      ensures !ok ==> upcasters == old(upcasters)
      ensures ok ==> multiset(ChainFor(u.eventType)) == multiset(old(ChainFor(u.eventType))) + multiset{u}
      ensures forall t :: t != u.eventType ==> ChainFor(t) == old(ChainFor(t))
    {
      if !WellFormed(u) {
        return false;
      }
      var existing := ChainFor(u.eventType);
      if exists i :: 0 <= i < |existing| && existing[i].from == u.from {
        return false;
      }
      InsertedIsSorted(existing, u);
      InsertedMembers(existing, u);
      var chain := Inserted(existing, u);
      assert u in chain;
      forall i | 0 <= i < |chain| ensures chain[i].from < chain[i].to {
        assert chain[i] in chain;
      }
      upcasters := upcasters[u.eventType := chain];
      ok := true;
    }

    /** upcast: the data along the full path from the stored version, if that path is complete. */
    method Upcast(eventType: string, storedSchemaVersion: int, data: D) returns (r: Result<D>)
      requires Valid()
      ensures exists path :: IsFullPath(ChainFor(eventType), storedSchemaVersion, path)
      ensures forall path :: IsFullPath(ChainFor(eventType), storedSchemaVersion, path) ==>
                var chain, end, along := ChainFor(eventType), EndOf(storedSchemaVersion, path), Along(path, data);
                if chain == [] then r == Ok(data)
                else if along.Error? then r == Error(along.message)
                else if end == (if storedSchemaVersion < Latest(chain) then Latest(chain) else storedSchemaVersion)
                then r == Ok(along.value)
                else r.Error?
    {
      FullPathExists(ChainFor(eventType), storedSchemaVersion);
      if eventType !in upcasters {
        return Ok(data);
      }
      var chain := upcasters[eventType];
      var current := Step(storedSchemaVersion, data);
      var failed := Ok(current);
      for k := 0 to |chain|
        invariant failed == Pass(chain, k, Step(storedSchemaVersion, data))
        invariant failed == Ok(current)
      {
        failed := Take(chain[k], current);
        if failed.Error? {
          PassFailed(chain, k + 1, Step(storedSchemaVersion, data));
          FollowAll(chain, Step(storedSchemaVersion, data));
          return Error(failed.message);
        }
        current := failed.value;
      }
      FollowAll(chain, Step(storedSchemaVersion, data));
      if !CompleteChain(chain, storedSchemaVersion, current.version) {
        return Error("Missing upcaster");
      }
      r := Ok(current.data);
    }

    /** getLatestVersion: the end of the full path from the base version, if it is complete. */
    method GetLatestVersion(eventType: string, baseVersion: int) returns (r: Result<int>)
      requires Valid()
      ensures exists path :: IsFullPath(ChainFor(eventType), baseVersion, path)
      ensures forall path :: IsFullPath(ChainFor(eventType), baseVersion, path) ==>
                var chain, end := ChainFor(eventType), EndOf(baseVersion, path);
                if chain == [] then r == Ok(baseVersion)
                else if end == (if baseVersion < Latest(chain) then Latest(chain) else baseVersion) then r == Ok(end)
                else r.Error?
    {
      FullPathExists(ChainFor(eventType), baseVersion);
      if eventType !in upcasters {
        return Ok(baseVersion);
      }
      var chain := upcasters[eventType];
      var version := baseVersion;
      for k := 0 to |chain|
        invariant version == Reached(chain, k, baseVersion)
      {
        if chain[k].from == version {
          version := chain[k].to;
        }
      }
      FollowAllVersions(chain, baseVersion);
      if !CompleteChain(chain, baseVersion, version) {
        return Error("Missing upcaster");
      }
      r := Ok(version);
    }
  }

  /** An error in the first k upcasters is the error of the whole pass. */
  lemma {:induction false} PassFailed<D>(chain: Chain<D>, k: nat, start: Step<D>)
    requires k <= |chain| && Pass(chain, k, start).Error?
    ensures Pass(chain, |chain|, start) == Pass(chain, k, start)
    decreases |chain| - k
  {
    if k < |chain| {
      PassFailed(chain, k + 1, start);
    }
  }

  lemma FollowAllVersions<D>(chain: Chain<D>, version: int)
    requires chain != [] && Sorted(chain) && Edges(chain)
    ensures forall path :: IsFullPath(chain, version, path) ==>
              EndOf(version, path) == Reached(chain, |chain|, version) &&
              (CompleteChain(chain, version, EndOf(version, path)) <==>
               EndOf(version, path) == if version < Latest(chain) then Latest(chain) else version)
  {
    forall path | IsFullPath(chain, version, path)
      ensures EndOf(version, path) == Reached(chain, |chain|, version)
      ensures CompleteChain(chain, version, EndOf(version, path)) <==>
              EndOf(version, path) == if version < Latest(chain) then Latest(chain) else version
    {
      TakenIsPath(chain, |chain|, version);
      NothingSkipped(chain, |chain|, version);
      FullPathUnique(chain, version, path, Taken(chain, |chain|, version));
      CompleteMeansArrived(chain, version, path);
    }
  }

  lemma FollowAll<D>(chain: Chain<D>, start: Step<D>)
    requires chain != [] && Sorted(chain) && Edges(chain)
    ensures forall path :: IsFullPath(chain, start.version, path) ==>
              var end, along := EndOf(start.version, path), Along(path, start.data);
              (if along.Ok? then Pass(chain, |chain|, start) == Ok(Step(end, along.value))
               else Pass(chain, |chain|, start) == Error(along.message)) &&
              (CompleteChain(chain, start.version, end) <==>
               end == if start.version < Latest(chain) then Latest(chain) else start.version)
  {
    forall path | IsFullPath(chain, start.version, path)
      ensures var end, along := EndOf(start.version, path), Along(path, start.data);
              (if along.Ok? then Pass(chain, |chain|, start) == Ok(Step(end, along.value))
               else Pass(chain, |chain|, start) == Error(along.message)) &&
              (CompleteChain(chain, start.version, end) <==>
               end == if start.version < Latest(chain) then Latest(chain) else start.version)
    {
      OnePassFollowsEdges(chain, start, path);
      CompleteMeansArrived(chain, start.version, path);
    }
  }
}
