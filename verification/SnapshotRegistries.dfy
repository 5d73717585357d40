/** Exactly which registries keep the replay bound: those of two definitions for given quotas,
    and those of any size over all quotas. */
module SnapshotRegistries {
  import opened Snapshots
  import opened SnapshotBound

  // ---- Two definitions as two counters ----

  /** The backlogs of a definition and of the one beside it. */
  datatype Backlogs = Backlogs(own: nat, other: nat)

  function BacklogsOf<D>(def: Definition<D>, other: Definition<D>, log: Log<D>): Backlogs {
    Backlogs(Pending(def, log), Pending(other, log))
  }

  /** The definition's turn after a batch with n of its source events. */
  function OwnTurn<D>(def: Definition<D>, other: Definition<D>, n: nat, s: Backlogs): Backlogs {
    if n > 0 && s.own >= def.every then Backlogs(0, s.other + Bit(def.EventType() in other.evolve)) else s
  }

  function OtherTurn<D>(def: Definition<D>, other: Definition<D>, n: nat, s: Backlogs): Backlogs {
    if n > 0 && s.other >= other.every then Backlogs(s.own + Bit(other.EventType() in def.evolve), 0) else s
  }

  /** One append with m and n source events of the two. */
  function Step<D>(def: Definition<D>, other: Definition<D>, behind: bool, s: Backlogs, m: nat, n: nat): Backlogs {
    var start := Backlogs(s.own + m, s.other + n);
    if behind then OtherTurn(def, other, n, OwnTurn(def, other, m, start))
    else OwnTurn(def, other, m, OtherTurn(def, other, n, start))
  }

  /** The registry with the other definition behind or before. */
  function Registry<D>(def: Definition<D>, other: Definition<D>, behind: bool): seq<Definition<D>> {
    if behind then [def, other] else [other, def]
  }

  lemma TwoTurns<D>(json: Codec<D>, a: Definition<D>, b: Definition<D>, streamId: string, log: Log<D>, events: Log<D>)
    ensures Appended(json, [a, b], streamId, log, events) ==
              Turn(json, b, streamId, events, Turn(json, a, streamId, events, log + events))
  {
    hide Turn, Updated, Concerned;
    assert UpdatedBy(json, [a, b], 0, streamId, events, log + events) == log + events;
    assert UpdatedBy(json, [a, b], 1, streamId, events, log + events) == Turn(json, a, streamId, events, log + events) by {
      TurnIs(json, a, streamId, events, log + events);
    }
    TurnIs(json, b, streamId, events, UpdatedBy(json, [a, b], 1, streamId, events, log + events));
  }

  lemma TurnIs<D>(json: Codec<D>, d: Definition<D>, streamId: string, events: Log<D>, log: Log<D>)
    ensures Turn(json, d, streamId, events, log) == if Concerned(d, streamId, events) then Updated(json, d, log) else log
  {
  }

  /** An append moves the two backlogs as the counters say. */
  lemma AppendIsStep<D>(json: Codec<D>, def: Definition<D>, other: Definition<D>, behind: bool, streamId: string,
                        log: Log<D>, events: Log<D>)
    requires Active(def, streamId) && Active(other, streamId) && def.EventType() != other.EventType()
    requires NoTombstones(log) && Ordinary(events)
    ensures BacklogsOf(def, other, Appended(json, Registry(def, other, behind), streamId, log, events)) ==
              Step(def, other, behind, BacklogsOf(def, other, log), Count(def, events), Count(other, events))
  {
    hide Pending, Count, Turn, Appended, Concerned, OwnTurn, OtherTurn;
    PendingAppended(def, log, events);
    PendingAppended(other, log, events);
    if behind {
      TwoTurns(json, def, other, streamId, log, events);
      OwnTurnMoves(json, def, other, streamId, events, log + events);
      OtherTurnMoves(json, def, other, streamId, events, Turn(json, def, streamId, events, log + events));
    } else {
      TwoTurns(json, other, def, streamId, log, events);
      OtherTurnMoves(json, def, other, streamId, events, log + events);
      OwnTurnMoves(json, def, other, streamId, events, Turn(json, other, streamId, events, log + events));
    }
  }

  lemma OwnTurnMoves<D>(json: Codec<D>, def: Definition<D>, other: Definition<D>, streamId: string, events: Log<D>, log: Log<D>)
    requires Active(def, streamId) && def.EventType() != other.EventType() && NoTombstones(log)
    ensures var after := Turn(json, def, streamId, events, log);
            NoTombstones(after) && BacklogsOf(def, other, after) == OwnTurn(def, other, Count(def, events), BacklogsOf(def, other, log))
  {
    hide Pending, Count, Turn, Concerned;
    ConcernedCounts(def, streamId, events);
    TurnCounts(json, def, def, streamId, events, log);
    TurnCounts(json, other, def, streamId, events, log);
  }

  lemma OtherTurnMoves<D>(json: Codec<D>, def: Definition<D>, other: Definition<D>, streamId: string, events: Log<D>, log: Log<D>)
    requires Active(other, streamId) && def.EventType() != other.EventType() && NoTombstones(log)
    ensures var after := Turn(json, other, streamId, events, log);
            NoTombstones(after) && BacklogsOf(def, other, after) == OtherTurn(def, other, Count(other, events), BacklogsOf(def, other, log))
  {
    hide Pending, Count, Turn, Concerned;
    ConcernedCounts(other, streamId, events);
    TurnCounts(json, def, other, streamId, events, log);
    TurnCounts(json, other, other, streamId, events, log);
  }

  /** One more append of n events of a type. */
  lemma Extend<D>(json: Codec<D>, def: Definition<D>, other: Definition<D>, behind: bool, streamId: string,
                  appends: seq<Log<D>>, t: string, n: nat) returns (more: seq<Log<D>>)
    requires Active(def, streamId) && Active(other, streamId) && def.EventType() != other.EventType()
    requires AllOrdinary(appends) && !Reserved(t) && n > 0
    ensures AllOrdinary(more)
    ensures BacklogsOf(def, other, Run(json, Registry(def, other, behind), streamId, more)) ==
              Step(def, other, behind, BacklogsOf(def, other, Run(json, Registry(def, other, behind), streamId, appends)),
                   if t in def.evolve then n else 0, if t in other.evolve then n else 0)
  {
    var events := Copies(t, def.initialState, n);
    CopiesCount(def, t, def.initialState, n);
    CopiesCount(other, t, def.initialState, n);
    RunPlain(json, Registry(def, other, behind), streamId, appends);
    RunSnoc(json, Registry(def, other, behind), streamId, appends, events);
    more := appends + [events];
    hide Run, Registry, Count, Step, AllOrdinary;
    AppendIsStep(json, def, other, behind, streamId, Run(json, Registry(def, other, behind), streamId, appends), events);
  }

  lemma StartsEmpty<D>(json: Codec<D>, def: Definition<D>, other: Definition<D>, behind: bool, streamId: string)
    ensures BacklogsOf(def, other, Run(json, Registry(def, other, behind), streamId, [])) == Backlogs(0, 0)
  {
  }

  // ---- A handled snapshot behind the definition ----

  /** Equal quotas, the same appended source events, and each handles the other's snapshots: then
      every append that fills one quota fills both. */
  ghost predicate Twins<D>(def: Definition<D>, other: Definition<D>) {
    && def.EventType() in other.evolve && other.every == def.every >= 2
    && (forall t :: !Reserved(t) ==> (t in def.evolve <==> t in other.evolve))
  }

  /** With a common source event and quotas other than the twins', at most three appends break
      the bound. */
  lemma CommonSourceBreaks<D>(json: Codec<D>, def: Definition<D>, other: Definition<D>, streamId: string, t: string)
    returns (appends: seq<Log<D>>)
    requires Active(def, streamId) && Handled(def, other, streamId)
    requires t in def.evolve && t in other.evolve && !Reserved(t)
    requires !(def.EventType() in other.evolve && other.every == def.every >= 2)
    ensures AllOrdinary(appends) && Pending(def, Run(json, [def, other], streamId, appends)) >= def.every
  {
    StartsEmpty(json, def, other, true, streamId);
    hide Run, Pending;
    var e, f, h := def.every, other.every, Bit(def.EventType() in other.evolve);
    if e == 1 {
      appends := Extend(json, def, other, true, streamId, [], t, f);
    } else if f <= e - 1 {
      appends := Extend(json, def, other, true, streamId, [], t, e - 1);
    } else if f - 1 - h >= e {
      appends := Extend(json, def, other, true, streamId, [], t, f - 1 - h);
      appends := Extend(json, def, other, true, streamId, appends, t, e - 1);
    } else {
      appends := Extend(json, def, other, true, streamId, [], t, e);
      appends := Extend(json, def, other, true, streamId, appends, t, e - 1);
      appends := Extend(json, def, other, true, streamId, appends, t, e - 1);
    }
  }

  /** With an event that only the definition handles its turns can raise the other backlog alone. */
  lemma {:induction false} RaiseOther<D>(json: Codec<D>, def: Definition<D>, other: Definition<D>, streamId: string, u: string,
                                         n: nat) returns (appends: seq<Log<D>>)
    requires Active(def, streamId) && Handled(def, other, streamId) && def.EventType() in other.evolve
    requires u in def.evolve && u !in other.evolve && !Reserved(u)
    ensures AllOrdinary(appends) && BacklogsOf(def, other, Run(json, [def, other], streamId, appends)) == Backlogs(0, n)
  {
    hide Run, Pending;
    if n == 0 {
      StartsEmpty(json, def, other, true, streamId);
      appends := [];
    } else {
      appends := RaiseOther(json, def, other, streamId, u, n - 1);
      appends := Extend(json, def, other, true, streamId, appends, u, def.every);
    }
  }

  lemma OwnSourceBreaks<D>(json: Codec<D>, def: Definition<D>, other: Definition<D>, streamId: string, t: string, u: string)
    returns (appends: seq<Log<D>>)
    requires Active(def, streamId) && Handled(def, other, streamId)
    requires t in def.evolve && t in other.evolve && !Reserved(t)
    requires def.EventType() in other.evolve && other.every == def.every >= 2
    requires u in def.evolve && u !in other.evolve && !Reserved(u)
    ensures AllOrdinary(appends) && Pending(def, Run(json, [def, other], streamId, appends)) >= def.every
  {
    appends := RaiseOther(json, def, other, streamId, u, other.every - 1);
    hide Run, Pending;
    appends := Extend(json, def, other, true, streamId, appends, t, def.every - 1);
  }

  /** The backlogs of twins stay below the quota, the other's never above. */
  lemma {:induction false} TwinsKeep<D>(json: Codec<D>, def: Definition<D>, other: Definition<D>, streamId: string,
                                        appends: seq<Log<D>>)
    requires Active(def, streamId) && Handled(def, other, streamId) && Twins(def, other) && AllOrdinary(appends)
    ensures var s := BacklogsOf(def, other, Run(json, [def, other], streamId, appends));
            s.own < def.every && (s.own == s.other || s.own == s.other + 1)
  {
    if appends == [] {
      StartsEmpty(json, def, other, true, streamId);
    } else {
      var init, last := appends[..|appends| - 1], appends[|appends| - 1];
      TwinsKeep(json, def, other, streamId, init);
      RunPlain(json, [def, other], streamId, init);
      SameCount(def, other, last);
      AppendIsStep(json, def, other, true, streamId, Run(json, [def, other], streamId, init), last);
    }
  }

  lemma {:induction false} SameCount<D>(def: Definition<D>, other: Definition<D>, events: Log<D>)
    requires forall i :: 0 <= i < |events| ==> !Reserved(events[i].eventType)
    requires forall t :: !Reserved(t) ==> (t in def.evolve <==> t in other.evolve)
    ensures Count(def, events) == Count(other, events)
  {
    if events != [] {
      var init, last := events[..|events| - 1], events[|events| - 1];
      assert events == init + [last];
      SameCount(def, other, init);
      CountSnoc(def, init, last);
      CountSnoc(other, init, last);
      assert !Reserved(last.eventType);
    }
  }

  /** The registry in which another definition stands behind: for its quotas, the bound is kept if
      and only if the other's snapshots are not handled, or are never written, or the two are
      twins. */
  lemma BoundWithOtherBehind<D(!new)>(json: Codec<D>, def: Definition<D>, other: Definition<D>, streamId: string)
    requires Active(def, streamId)
    ensures KeepsBound(json, def, [def, other], streamId) <==>
            !(Handled(def, other, streamId) && HasSource(other)) || Twins(def, other)
  {
    if !(Handled(def, other, streamId) && HasSource(other)) {
      HarmlessKeepsBound(json, def, [def, other], streamId);
    } else if Twins(def, other) {
      forall appends: seq<Log<D>> | AllOrdinary(appends)
        ensures Pending(def, Run(json, [def, other], streamId, appends)) < def.every
      {
        TwinsKeep(json, def, other, streamId, appends);
      }
    } else {
      var appends := BehindBreaks(json, def, other, streamId);
    }
  }

  lemma BehindBreaks<D>(json: Codec<D>, def: Definition<D>, other: Definition<D>, streamId: string) returns (appends: seq<Log<D>>)
    requires Active(def, streamId) && Handled(def, other, streamId) && HasSource(other) && !Twins(def, other)
    ensures AllOrdinary(appends) && Pending(def, Run(json, [def, other], streamId, appends)) >= def.every
  {
    if !SourcesWithin(other, def) {
      var t :| t in other.evolve && !Reserved(t) && t !in def.evolve;
      hide Run, Pending;
      appends := PrivateRun(json, def, [def, other], 1, streamId, t, def.every);
    } else {
      var t :| t in other.evolve && !Reserved(t);
      hide Run, Pending;
      if def.EventType() in other.evolve && other.every == def.every >= 2 {
        var u :| !Reserved(u) && !(u in def.evolve <==> u in other.evolve);
        appends := OwnSourceBreaks(json, def, other, streamId, t, u);
      } else {
        appends := CommonSourceBreaks(json, def, other, streamId, t);
      }
    }
  }

  // ---- A handled snapshot before the definition ----

  /** The registry in which another definition stands before: the bound is kept if and only if the
      other's snapshots are not handled, or are written only when the definition gets its turn. */
  lemma BoundWithOtherBefore<D(!new)>(json: Codec<D>, def: Definition<D>, other: Definition<D>, streamId: string)
    requires Active(def, streamId)
    ensures KeepsBound(json, def, [other, def], streamId) <==>
            !(Handled(def, other, streamId) && HasSource(other)) || SourcesWithin(other, def)
  {
    if !(Handled(def, other, streamId) && HasSource(other)) || SourcesWithin(other, def) {
      assert [other, def][1] == def;
      HarmlessKeepsBound(json, def, [other, def], streamId);
    } else {
      var t :| t in other.evolve && !Reserved(t) && t !in def.evolve;
      PrivateSourceBreaksBound(json, def, [other, def], 0, streamId, t, def.every);
      var appends: seq<Log<D>> :| AllOrdinary(appends) && Pending(def, Run(json, [other, def], streamId, appends)) >= def.every;
    }
  }

  // ---- Three registries of two ----

  lemma CounterHandles(name: string, every: int, eventTypes: set<string>, otherName: string, otherEvery: int)
    requires every > 0 && otherEvery > 0 && "A" in eventTypes && otherName + "Snapshot" in eventTypes && name != otherName
    ensures var def, other := Counter(name, every, 0, eventTypes), Counter(otherName, otherEvery, 0, {"A"});
            Active(def, "S-1") && Handled(def, other, "S-1") && HasSource(other) && SourcesWithin(other, def)
  {
    var def, other := Counter(name, every, 0, eventTypes), Counter(otherName, otherEvery, 0, {"A"});
    assert "S" + "-" <= "S-1";
    assert "A" in other.evolve && !Reserved("A");
    if def.EventType() == other.EventType() {
      SameTypeSameName(def, other);
    }
  }

  /** One handled snapshot behind the definition: with every quota one the bound is missed; with
      the two in the other order it is kept. */
  lemma SnapshotSourcesBreakBound()
    ensures var def, other := Counter("N", 1, 0, {"A", "MSnapshot"}), Counter("M", 1, 0, {"A"});
            !KeepsBound(Plain, def, [def, other], "S-1") && KeepsBound(Plain, def, [other, def], "S-1")
  {
    var def, other := Counter("N", 1, 0, {"A", "MSnapshot"}), Counter("M", 1, 0, {"A"});
    hide KeepsBound;
    assert "M" + "Snapshot" == "MSnapshot";
    CounterHandles("N", 1, {"A", "MSnapshot"}, "M", 1);
    BoundWithOtherBehind(Plain, def, other, "S-1");
    BoundWithOtherBefore(Plain, def, other, "S-1");
  }

  /** Twins keep the bound although a handled snapshot stands behind: no condition that ignores
      the quotas is exact. */
  lemma TwinsKeepBound()
    ensures var def, other := Counter("N", 2, 0, {"A", "MSnapshot"}), Counter("M", 2, 0, {"A", "NSnapshot"});
            KeepsBound(Plain, def, [def, other], "S-1") && !Harmless(def, [def, other], "S-1")
  {
    var def, other := Counter("N", 2, 0, {"A", "MSnapshot"}), Counter("M", 2, 0, {"A", "NSnapshot"});
    hide KeepsBound;
    assert "S" + "-" <= "S-1" && "M" + "Snapshot" == "MSnapshot" && "N" + "Snapshot" == "NSnapshot";
    SnapshotTypeIsReserved(def);
    SnapshotTypeIsReserved(other);
    assert "A" in other.evolve && !Reserved("A");
    assert [def, other][1] == other;
    BoundWithOtherBehind(Plain, def, other, "S-1");
  }

  // ---- Registries of any size, over all quotas ----

  /** The registry with these quotas; one of zero switches a definition off. */
  function WithQuotas<D>(snapshots: seq<Definition<D>>, quotas: seq<int>): (r: seq<Definition<D>>)
    requires |quotas| == |snapshots|
    ensures |r| == |snapshots|
  {
    seq(|snapshots|, i requires 0 <= i < |snapshots| => snapshots[i].(every := quotas[i]))
  }

  /** The definition at this place keeps its bound whatever quotas are configured. */
  ghost predicate KeepsBoundForAllQuotas<D(!new)>(json: Codec<D>, snapshots: seq<Definition<D>>, at: nat, streamId: string)
    requires at < |snapshots|
  {
    forall quotas: seq<int> :: |quotas| == |snapshots| && quotas[at] > 0 ==>
      KeepsBound(json, WithQuotas(snapshots, quotas)[at], WithQuotas(snapshots, quotas), streamId)
  }

  /** A definition whose snapshots the one at this place handles and that can write them. */
  ghost predicate Feeds<D>(snapshots: seq<Definition<D>>, i: nat, at: nat, streamId: string)
    requires i < |snapshots| && at < |snapshots|
  {
    snapshots[i].streamPrefix + "-" <= streamId && snapshots[i].EventType() != snapshots[at].EventType() &&
    snapshots[i].EventType() in snapshots[at].evolve && HasSource(snapshots[i])
  }

  /** Whatever feeds it stands before it and has no source event of its own. */
  ghost predicate HarmlessOrder<D>(snapshots: seq<Definition<D>>, at: nat, streamId: string)
    requires at < |snapshots|
  {
    forall i :: 0 <= i < |snapshots| && Feeds(snapshots, i, at, streamId) ==> i < at && SourcesWithin(snapshots[i], snapshots[at])
  }

  lemma HarmlessForQuotas<D(!new)>(json: Codec<D>, snapshots: seq<Definition<D>>, at: nat, streamId: string, quotas: seq<int>)
    requires at < |snapshots| && snapshots[at].streamPrefix + "-" <= streamId && HarmlessOrder(snapshots, at, streamId)
    requires |quotas| == |snapshots| && quotas[at] > 0
    ensures KeepsBound(json, WithQuotas(snapshots, quotas)[at], WithQuotas(snapshots, quotas), streamId)
  {
    var r := WithQuotas(snapshots, quotas);
    var def := r[at];
    forall i | 0 <= i < |r| && Handled(def, r[i], streamId) && HasSource(r[i])
      ensures SourcesWithin(r[i], def) && exists j :: i < j < |r| && r[j] == def
    {
      assert r[i].evolve == snapshots[i].evolve && r[i].EventType() == snapshots[i].EventType();
      assert Feeds(snapshots, i, at, streamId);
      assert i < at && r[at] == def;
    }
    HarmlessKeepsBound(json, def, r, streamId);
  }

  /** Two definitions switched on, with quotas of one: the later one's snapshot stays pending. */
  lemma {:induction false} LaterTurnStays<D>(json: Codec<D>, r: seq<Definition<D>>, at: nat, i: nat, k: nat, streamId: string,
                                             t: string, events: Log<D>, log: Log<D>)
    requires at < i < |r| && k <= |r| && NoTombstones(log) && r[at].every == 1 && r[i].every == 1
    requires forall n :: 0 <= n < |r| && n != at && n != i ==> r[n].every == 0
    requires Handled(r[at], r[i], streamId) && |events| == 1 && events[0].eventType == t && t in r[i].evolve
    requires Pending(r[i], log) >= 1
    ensures var after := UpdatedBy(json, r, k, streamId, events, log);
            NoTombstones(after) && (k <= i ==> Pending(r[i], after) >= 1) && (k > i ==> Pending(r[at], after) >= 1)
  {
    if k > 0 {
      LaterTurnStays(json, r, at, i, k - 1, streamId, t, events, log);
      var before := UpdatedBy(json, r, k - 1, streamId, events, log);
      TurnCounts(json, r[at], r[k - 1], streamId, events, before);
      TurnCounts(json, r[i], r[k - 1], streamId, events, before);
      assert Concerned(r[i], streamId, events);
      assert UpdatedBy(json, r, k, streamId, events, log) == Turn(json, r[k - 1], streamId, events, before);
      assert k - 1 != at && k - 1 != i ==> !Fires(r[k - 1], streamId, events, before);
    }
  }

  lemma FeederBreaks<D(!new)>(json: Codec<D>, snapshots: seq<Definition<D>>, at: nat, i: nat, streamId: string)
    requires at < |snapshots| && i < |snapshots| && snapshots[at].streamPrefix + "-" <= streamId
    requires Feeds(snapshots, i, at, streamId) && !(i < at && SourcesWithin(snapshots[i], snapshots[at]))
    ensures !KeepsBoundForAllQuotas(json, snapshots, at, streamId)
  {
    var quotas := seq(|snapshots|, n => if n == at || n == i then 1 else 0);
    var r := WithQuotas(snapshots, quotas);
    var def := r[at];
    assert r[i].evolve == snapshots[i].evolve && def.evolve == snapshots[at].evolve;
    assert r[i].EventType() == snapshots[i].EventType() && def.EventType() == snapshots[at].EventType();
    assert Handled(def, r[i], streamId);
    var t :| t in snapshots[i].evolve && !Reserved(t) && (i < at ==> t !in snapshots[at].evolve);
    assert quotas[at] > 0 && r[i].every == 1 && def.every == 1;
    assert forall n :: 0 <= n < |r| && n != at && n != i ==> r[n].every == 0;
    if t !in def.evolve {
      hide KeepsBound;
      PrivateQuotasBreak(json, r, at, i, streamId, t);
    } else {
      hide KeepsBound;
      LaterQuotasBreak(json, r, at, i, streamId, t);
    }
  }

  lemma PrivateQuotasBreak<D(!new)>(json: Codec<D>, r: seq<Definition<D>>, at: nat, i: nat, streamId: string, t: string)
    requires at < |r| && i < |r| && r[at].every == 1 && r[i].every == 1
    requires forall n :: 0 <= n < |r| && n != at && n != i ==> r[n].every == 0
    requires Handled(r[at], r[i], streamId) && t in r[i].evolve && !Reserved(t) && t !in r[at].evolve
    ensures !KeepsBound(json, r[at], r, streamId)
  {
    hide Run, Pending;
    assert NoTurnFor(r[at], r, streamId, t);
    var appends := PrivateRun(json, r[at], r, i, streamId, t, 1);
  }

  lemma LaterQuotasBreak<D(!new)>(json: Codec<D>, r: seq<Definition<D>>, at: nat, i: nat, streamId: string, t: string)
    requires at < i < |r| && r[at].every == 1 && r[i].every == 1
    requires forall n :: 0 <= n < |r| && n != at && n != i ==> r[n].every == 0
    requires Handled(r[at], r[i], streamId) && t in r[i].evolve && !Reserved(t)
    ensures !KeepsBound(json, r[at], r, streamId)
  {
    var def := r[at];
    var events := Copies(t, def.initialState, 1);
    CopiesCount(r[i], t, def.initialState, 1);
    PendingAppended(r[i], [], events);
    assert Run(json, r, streamId, []) == [];
    hide Run, Pending;
    LaterTurnStays(json, r, at, i, |r|, streamId, t, events, [] + events);
    RunSnoc(json, r, streamId, [], events);
    var appends := [] + [events];
    assert AllOrdinary(appends) && Pending(def, Run(json, r, streamId, appends)) >= 1;
  }

  /** In a registry of any size a definition keeps its bound for all quotas if and only if every
      definition whose snapshots it handles, and that can write them, stands before it and has no
      source event of its own. */
  lemma BoundForAllQuotas<D(!new)>(json: Codec<D>, snapshots: seq<Definition<D>>, at: nat, streamId: string)
    requires at < |snapshots| && snapshots[at].streamPrefix + "-" <= streamId
    ensures KeepsBoundForAllQuotas(json, snapshots, at, streamId) <==> HarmlessOrder(snapshots, at, streamId)
  {
    hide KeepsBound;
    if HarmlessOrder(snapshots, at, streamId) {
      forall quotas: seq<int> | |quotas| == |snapshots| && quotas[at] > 0
        ensures KeepsBound(json, WithQuotas(snapshots, quotas)[at], WithQuotas(snapshots, quotas), streamId)
      {
        HarmlessForQuotas(json, snapshots, at, streamId, quotas);
      }
    } else {
      var i :| 0 <= i < |snapshots| && Feeds(snapshots, i, at, streamId) &&
               !(i < at && SourcesWithin(snapshots[i], snapshots[at]));
      FeederBreaks(json, snapshots, at, i, streamId);
    }
  }
}
