/** How many source events a load may have to replay, and which registries keep that below the
    quota.

    A snapshot event of one definition counts as a source event of another that has a handler
    for it, but does not make that other one look at its own quota. */
module SnapshotBound {
  import opened Snapshots

  /** Source events behind the latest snapshot. */
  function Pending<D>(def: Definition<D>, log: Log<D>): nat {
    SourceEvents(def, log, BaseVersion(def, log), |log|)
  }

  ghost predicate NoTombstones<D>(log: Log<D>) {
    forall i :: 0 <= i < |log| ==> !log[i].tombstoned
  }

  /** An accepted batch of events none of which is redacted. */
  ghost predicate Ordinary<D>(events: Log<D>) {
    Acceptable(events) && NoTombstones(events)
  }

  /** How many events of a batch the definition has a handler for. */
  function Count<D>(def: Definition<D>, events: Log<D>): nat {
    SourceEvents(def, events, 0, |events|)
  }

  function Bit(b: bool): nat {
    if b then 1 else 0
  }

  // ---- How the count of one definition moves ----

  lemma PendingExtended<D>(def: Definition<D>, log: Log<D>, event: Event<D>)
    requires NoTombstones(log) && !event.tombstoned
    ensures Pending(def, log + [event]) ==
              if event.eventType == def.EventType() then 0 else Pending(def, log) + Bit(event.eventType in def.evolve)
  {
    var longer := log + [event];
    assert longer[..|log|] == log;
    EvolvedPrefix(def, def.initialState, log, [event], BaseVersion(def, log), |log|);
  }

  lemma CountSnoc<D>(def: Definition<D>, events: Log<D>, last: Event<D>)
    ensures Count(def, events + [last]) == Count(def, events) + Bit(last.eventType in def.evolve)
  {
    EvolvedPrefix(def, def.initialState, events, [last], 0, |events|);
  }

  lemma {:induction false} PendingAppended<D>(def: Definition<D>, log: Log<D>, events: Log<D>)
    requires NoTombstones(log) && NoTombstones(events)
    requires forall i :: 0 <= i < |events| ==> !Reserved(events[i].eventType)
    ensures NoTombstones(log + events) && Pending(def, log + events) == Pending(def, log) + Count(def, events)
  {
    if events == [] {
      assert log + events == log;
    } else {
      var init, last := events[..|events| - 1], events[|events| - 1];
      assert events == init + [last] && log + events == log + init + [last];
      SnapshotTypeIsReserved(def);
      hide Pending, Count, SourceEvents, Reserved;
      PendingAppended(def, log, init);
      PendingExtended(def, log + init, last);
      CountSnoc(def, init, last);
    }
  }

  /** A definition of the batch's types is concerned exactly when it counts one of them. */
  lemma {:induction false} ConcernedCounts<D>(def: Definition<D>, streamId: string, events: Log<D>)
    requires def.streamPrefix + "-" <= streamId
    ensures Concerned(def, streamId, events) <==> Count(def, events) > 0
  {
    if events != [] {
      var init, last := events[..|events| - 1], events[|events| - 1];
      assert events == init + [last];
      ConcernedCounts(def, streamId, init);
      CountSnoc(def, init, last);
      if Concerned(def, streamId, init) {
        var i :| 0 <= i < |init| && init[i].eventType in def.evolve;
        assert events[i].eventType in def.evolve;
      }
      if last.eventType in def.evolve {
        assert events[|init|].eventType in def.evolve;
      }
      if Concerned(def, streamId, events) && last.eventType !in def.evolve {
        var i :| 0 <= i < |events| && events[i].eventType in def.evolve;
        assert init[i].eventType in def.evolve;
      }
    }
  }

  /** The turn of d: it writes a snapshot when the batch concerns it and its quota is filled. */
  predicate Fires<D>(d: Definition<D>, streamId: string, events: Log<D>, log: Log<D>) {
    Concerned(d, streamId, events) && d.every > 0 && Pending(d, log) >= d.every
  }

  function Turn<D>(json: Codec<D>, d: Definition<D>, streamId: string, events: Log<D>, log: Log<D>): Log<D> {
    if Concerned(d, streamId, events) then Updated(json, d, log) else log
  }

  /** What d's turn does to the count of any definition. */
  lemma TurnCounts<D>(json: Codec<D>, def: Definition<D>, d: Definition<D>, streamId: string, events: Log<D>, log: Log<D>)
    requires NoTombstones(log)
    ensures var after := Turn(json, d, streamId, events, log);
            NoTombstones(after) &&
            Pending(def, after) ==
              if !Fires(d, streamId, events, log) then Pending(def, log)
              else if d.EventType() == def.EventType() then 0
              else Pending(def, log) + Bit(d.EventType() in def.evolve)
  {
    var after := Turn(json, d, streamId, events, log);
    if Fires(d, streamId, events, log) {
      assert after == log + [after[|log|]];
      PendingExtended(def, log, after[|log|]);
    }
  }

  // ---- The bound ----

  /** A snapshot that can be written to the stream, of another name, and with a handler here. */
  predicate Handled<D>(def: Definition<D>, d: Definition<D>, streamId: string) {
    Active(d, streamId) && d.EventType() != def.EventType() && d.EventType() in def.evolve
  }

  /** The definition has a source event that can be appended. */
  ghost predicate HasSource<D>(d: Definition<D>) {
    exists t :: t in d.evolve && !Reserved(t)
  }

  /** Whatever appended event concerns d concerns def. */
  ghost predicate SourcesWithin<D>(d: Definition<D>, def: Definition<D>) {
    forall t :: t in d.evolve && !Reserved(t) ==> t in def.evolve
  }

  /** Every handled snapshot with a source is written before the definition's own turn, and only
      by appends that give the definition its turn. */
  ghost predicate Harmless<D>(def: Definition<D>, snapshots: seq<Definition<D>>, streamId: string) {
    forall i :: 0 <= i < |snapshots| && Handled(def, snapshots[i], streamId) && HasSource(snapshots[i]) ==>
      SourcesWithin(snapshots[i], def) && exists j :: i < j < |snapshots| && snapshots[j] == def
  }

  predicate Raises<D>(def: Definition<D>, d: Definition<D>, streamId: string, events: Log<D>) {
    Handled(def, d, streamId) && Concerned(d, streamId, events)
  }

  /** The count from some turn of the definition on, if nothing raises it behind that turn. */
  lemma {:induction false} TurnsKeep<D>(json: Codec<D>, def: Definition<D>, snapshots: seq<Definition<D>>, k: nat,
                                        streamId: string, events: Log<D>, log: Log<D>)
    requires k <= |snapshots| && NoTombstones(log) && def.every > 0
    ensures var after := UpdatedBy(json, snapshots, k, streamId, events, log);
            NoTombstones(after) &&
            ((forall i :: 0 <= i < k ==> !Raises(def, snapshots[i], streamId, events)) ==> Pending(def, after) <= Pending(def, log)) &&
            (Concerned(def, streamId, events) &&
             (exists j :: 0 <= j < k && snapshots[j] == def &&
                          forall i :: j < i < k ==> !Raises(def, snapshots[i], streamId, events)) ==>
               Pending(def, after) < def.every)
  {
    if k > 0 {
      TurnsKeep(json, def, snapshots, k - 1, streamId, events, log);
      var before, d := UpdatedBy(json, snapshots, k - 1, streamId, events, log), snapshots[k - 1];
      TurnCounts(json, def, d, streamId, events, before);
      assert UpdatedBy(json, snapshots, k, streamId, events, log) == Turn(json, d, streamId, events, before);
      FiresActive(def, d, streamId, events, before);
      hide UpdatedBy, Turn, Fires, Pending, Concerned, Raises;
      if exists j :: 0 <= j < k && snapshots[j] == def && forall i :: j < i < k ==> !Raises(def, snapshots[i], streamId, events) {
        var j :| 0 <= j < k && snapshots[j] == def && forall i :: j < i < k ==> !Raises(def, snapshots[i], streamId, events);
        assert j < k - 1 ==> forall i :: j < i < k - 1 ==> !Raises(def, snapshots[i], streamId, events);
      }
    }
  }

  lemma FiresActive<D>(def: Definition<D>, d: Definition<D>, streamId: string, events: Log<D>, log: Log<D>)
    ensures Fires(d, streamId, events, log) && d.EventType() != def.EventType() && d.EventType() in def.evolve ==>
              Raises(def, d, streamId, events)
    ensures d == def && def.every > 0 && Concerned(def, streamId, events) && !Fires(d, streamId, events, log) ==>
              Pending(def, log) < def.every
  {
  }

  lemma {:induction false} LastTurn<D>(def: Definition<D>, snapshots: seq<Definition<D>>, k: nat) returns (j: nat)
    requires k <= |snapshots| && def in snapshots[..k]
    ensures j < k && snapshots[j] == def && forall i :: j < i < k ==> snapshots[i] != def
  {
    assert snapshots[..k] == snapshots[..k - 1] + [snapshots[k - 1]];
    if snapshots[k - 1] == def {
      j := k - 1;
    } else {
      j := LastTurn(def, snapshots, k - 1);
    }
  }

  lemma ConcernedHasSource<D>(d: Definition<D>, def: Definition<D>, streamId: string, events: Log<D>)
    requires Acceptable(events) && Concerned(d, streamId, events)
    ensures HasSource(d)
    ensures SourcesWithin(d, def) && def.streamPrefix + "-" <= streamId ==> Concerned(def, streamId, events)
  {
    var i :| 0 <= i < |events| && events[i].eventType in d.evolve;
  }

  lemma PendingAfterAppend<D>(json: Codec<D>, def: Definition<D>, snapshots: seq<Definition<D>>, streamId: string, log: Log<D>,
                              events: Log<D>)
    requires NoTombstones(log) && Ordinary(events) && Pending(def, log) < def.every
    requires def.streamPrefix + "-" <= streamId && def in snapshots && Harmless(def, snapshots, streamId)
    ensures var after := Appended(json, snapshots, streamId, log, events);
            NoTombstones(after) && Pending(def, after) < def.every
  {
    PendingAppended(def, log, events);
    TurnsKeep(json, def, snapshots, |snapshots|, streamId, events, log + events);
    ConcernedCounts(def, streamId, events);
    hide Pending, Count, UpdatedBy, NoTombstones;
    if Concerned(def, streamId, events) {
      assert snapshots[..|snapshots|] == snapshots;
      var j := LastTurn(def, snapshots, |snapshots|);
      forall i | j < i < |snapshots| ensures !Raises(def, snapshots[i], streamId, events) {
        if Raises(def, snapshots[i], streamId, events) {
          ConcernedHasSource(snapshots[i], def, streamId, events);
        }
      }
    } else {
      forall i | 0 <= i < |snapshots| ensures !Raises(def, snapshots[i], streamId, events) {
        if Raises(def, snapshots[i], streamId, events) {
          ConcernedHasSource(snapshots[i], def, streamId, events);
        }
      }
    }
  }

  /** The replay bound: with a snapshot registered from the start fewer than `every` source events
      are ever left to replay after an append, whatever the batch sizes, as long as the snapshots
      it handles stand before it and have no source event of their own. */
  lemma {:induction false} ReplayBound<D>(json: Codec<D>, def: Definition<D>, streamId: string, batches: seq<Batch<D>>)
    requires Active(def, streamId)
    requires forall n :: 0 <= n < |batches| ==>
               Ordinary(batches[n].events) && def in batches[n].snapshots && Harmless(def, batches[n].snapshots, streamId)
    ensures NoTombstones(History(json, streamId, batches)) && Pending(def, History(json, streamId, batches)) < def.every
  {
    if batches != [] {
      var before := History(json, streamId, batches[..|batches| - 1]);
      ReplayBound(json, def, streamId, batches[..|batches| - 1]);
      PendingAfterAppend(json, def, batches[|batches| - 1].snapshots, streamId, before, batches[|batches| - 1].events);
    }
  }

  // ---- Runs with one registry ----

  /** The stream after a run of appends in processes with the same registry. */
  function Run<D>(json: Codec<D>, snapshots: seq<Definition<D>>, streamId: string, appends: seq<Log<D>>): Log<D> {
    if appends == [] then []
    else Appended(json, snapshots, streamId, Run(json, snapshots, streamId, appends[..|appends| - 1]), appends[|appends| - 1])
  }

  ghost predicate AllOrdinary<D>(appends: seq<Log<D>>) {
    forall n :: 0 <= n < |appends| ==> Ordinary(appends[n])
  }

  /** However the appends go, fewer than `every` source events are left after each. */
  ghost predicate KeepsBound<D(!new)>(json: Codec<D>, def: Definition<D>, snapshots: seq<Definition<D>>, streamId: string) {
    forall appends: seq<Log<D>> :: AllOrdinary(appends) ==>
      Pending(def, Run(json, snapshots, streamId, appends)) < def.every
  }

  lemma {:induction false} RunPlain<D>(json: Codec<D>, snapshots: seq<Definition<D>>, streamId: string, appends: seq<Log<D>>)
    requires AllOrdinary(appends)
    ensures NoTombstones(Run(json, snapshots, streamId, appends))
  {
    if appends != [] {
      var init, last := appends[..|appends| - 1], appends[|appends| - 1];
      RunPlain(json, snapshots, streamId, init);
      TurnsPlain(json, snapshots, |snapshots|, streamId, last, Run(json, snapshots, streamId, init) + last);
    }
  }

  lemma {:induction false} TurnsPlain<D>(json: Codec<D>, snapshots: seq<Definition<D>>, k: nat, streamId: string,
                                         events: Log<D>, log: Log<D>)
    requires k <= |snapshots| && NoTombstones(log)
    ensures NoTombstones(UpdatedBy(json, snapshots, k, streamId, events, log))
  {
    if k > 0 {
      TurnsPlain(json, snapshots, k - 1, streamId, events, log);
    }
  }

  lemma RunSnoc<D>(json: Codec<D>, snapshots: seq<Definition<D>>, streamId: string, appends: seq<Log<D>>, events: Log<D>)
    ensures Run(json, snapshots, streamId, appends + [events]) ==
              Appended(json, snapshots, streamId, Run(json, snapshots, streamId, appends), events)
    ensures AllOrdinary(appends) && Ordinary(events) ==> AllOrdinary(appends + [events])
  {
    assert (appends + [events])[..|appends|] == appends;
  }

  lemma {:induction false} HarmlessKeepsBound<D(!new)>(json: Codec<D>, def: Definition<D>, snapshots: seq<Definition<D>>,
                                                       streamId: string)
    requires Active(def, streamId) && def in snapshots && Harmless(def, snapshots, streamId)
    ensures KeepsBound(json, def, snapshots, streamId)
  {
    forall appends: seq<Log<D>> | AllOrdinary(appends)
      ensures Pending(def, Run(json, snapshots, streamId, appends)) < def.every
    {
      HarmlessRun(json, def, snapshots, streamId, appends);
    }
  }

  lemma {:induction false} HarmlessRun<D>(json: Codec<D>, def: Definition<D>, snapshots: seq<Definition<D>>, streamId: string,
                                          appends: seq<Log<D>>)
    requires Active(def, streamId) && def in snapshots && Harmless(def, snapshots, streamId) && AllOrdinary(appends)
    ensures NoTombstones(Run(json, snapshots, streamId, appends))
    ensures Pending(def, Run(json, snapshots, streamId, appends)) < def.every
  {
    if appends != [] {
      var init, last := appends[..|appends| - 1], appends[|appends| - 1];
      HarmlessRun(json, def, snapshots, streamId, init);
      PendingAfterAppend(json, def, snapshots, streamId, Run(json, snapshots, streamId, init), last);
    }
  }

  // ---- Batches of one event type ----

  /** n events of one type; the data does not matter here. */
  function Copies<D>(eventType: string, data: D, n: nat): Log<D> {
    seq(n, i => Event(eventType, data, false))
  }

  lemma {:induction false} CopiesCount<D>(def: Definition<D>, eventType: string, data: D, n: nat)
    requires !Reserved(eventType)
    ensures n > 0 ==> Ordinary(Copies(eventType, data, n))
    ensures Count(def, Copies(eventType, data, n)) == if eventType in def.evolve then n else 0
  {
    if n > 0 {
      CopiesCount(def, eventType, data, n - 1);
      var init := Copies(eventType, data, n - 1);
      assert Copies(eventType, data, n) == init + [Event(eventType, data, false)];
      CountSnoc(def, init, Event(eventType, data, false));
    }
  }

  // ---- A handled snapshot with a source of its own ----

  /** None of the definition's name looks at its quota when the event type is appended. */
  ghost predicate NoTurnFor<D>(def: Definition<D>, snapshots: seq<Definition<D>>, streamId: string, eventType: string) {
    forall i :: 0 <= i < |snapshots| && Active(snapshots[i], streamId) && snapshots[i].EventType() == def.EventType() ==>
      eventType !in snapshots[i].evolve
  }

  /** One append of enough such events leads to one more handled snapshot, or more. */
  lemma {:induction false} PrivateTurns<D>(json: Codec<D>, def: Definition<D>, snapshots: seq<Definition<D>>, i: nat, k: nat,
                                           streamId: string, t: string, events: Log<D>, log: Log<D>)
    requires i < |snapshots| && k <= |snapshots| && NoTombstones(log) && NoTurnFor(def, snapshots, streamId, t)
    requires Handled(def, snapshots[i], streamId) && t in snapshots[i].evolve
    requires events != [] && (forall n :: 0 <= n < |events| ==> events[n].eventType == t)
    requires Pending(snapshots[i], log) >= snapshots[i].every
    ensures var o, after := snapshots[i], UpdatedBy(json, snapshots, k, streamId, events, log);
            NoTombstones(after) && Pending(def, after) >= Pending(def, log) &&
            (k > i || Pending(o, after) < Pending(o, log) ==> Pending(def, after) > Pending(def, log))
  {
    if k > 0 {
      PrivateTurns(json, def, snapshots, i, k - 1, streamId, t, events, log);
      var before, d := UpdatedBy(json, snapshots, k - 1, streamId, events, log), snapshots[k - 1];
      TurnCounts(json, def, d, streamId, events, before);
      TurnCounts(json, snapshots[i], d, streamId, events, before);
      assert UpdatedBy(json, snapshots, k, streamId, events, log) == Turn(json, d, streamId, events, before);
      assert events[0].eventType == t;
      assert Concerned(d, streamId, events) ==> t in d.evolve;
      hide UpdatedBy, Turn, Pending, NoTombstones;
      assert Fires(d, streamId, events, before) ==> d.EventType() != def.EventType();
      assert k - 1 == i && Pending(snapshots[i], before) >= Pending(snapshots[i], log) ==> Fires(d, streamId, events, before);
    }
  }

  lemma PrivateAppend<D>(json: Codec<D>, def: Definition<D>, snapshots: seq<Definition<D>>, i: nat, streamId: string, t: string,
                         log: Log<D>)
    requires i < |snapshots| && NoTombstones(log) && NoTurnFor(def, snapshots, streamId, t)
    requires Handled(def, snapshots[i], streamId) && t in snapshots[i].evolve && !Reserved(t)
    ensures var after := Appended(json, snapshots, streamId, log, Copies(t, def.initialState, snapshots[i].every));
            NoTombstones(after) && Pending(def, after) > Pending(def, log)
  {
    var o := snapshots[i];
    var events := Copies(t, def.initialState, o.every);
    CopiesCount(def, t, def.initialState, o.every);
    CopiesCount(o, t, def.initialState, o.every);
    PendingAppended(def, log, events);
    PendingAppended(o, log, events);
    hide Pending, Count;
    PrivateTurns(json, def, snapshots, i, |snapshots|, streamId, t, events, log + events);
  }

  lemma {:induction false} PrivateRun<D>(json: Codec<D>, def: Definition<D>, snapshots: seq<Definition<D>>, i: nat,
                                         streamId: string, t: string, n: nat) returns (appends: seq<Log<D>>)
    requires i < |snapshots| && NoTurnFor(def, snapshots, streamId, t)
    requires Handled(def, snapshots[i], streamId) && t in snapshots[i].evolve && !Reserved(t)
    ensures AllOrdinary(appends) && NoTombstones(Run(json, snapshots, streamId, appends))
    ensures Pending(def, Run(json, snapshots, streamId, appends)) >= n
  {
    if n == 0 {
      appends := [];
    } else {
      var before := PrivateRun(json, def, snapshots, i, streamId, t, n - 1);
      var events := Copies(t, def.initialState, snapshots[i].every);
      CopiesCount(def, t, def.initialState, snapshots[i].every);
      PrivateAppend(json, def, snapshots, i, streamId, t, Run(json, snapshots, streamId, before));
      RunSnoc(json, snapshots, streamId, before, events);
      appends := before + [events];
    }
  }

  /** In any registry, with any quotas: a handled snapshot that has a source event for which the
      definition gets no turn makes the backlog grow past every number. */
  lemma PrivateSourceBreaksBound<D(!new)>(json: Codec<D>, def: Definition<D>, snapshots: seq<Definition<D>>, i: nat,
                                          streamId: string, t: string, n: nat)
    requires i < |snapshots| && NoTurnFor(def, snapshots, streamId, t)
    requires Handled(def, snapshots[i], streamId) && t in snapshots[i].evolve && !Reserved(t)
    ensures exists appends: seq<Log<D>> :: AllOrdinary(appends) && Pending(def, Run(json, snapshots, streamId, appends)) >= n
  {
    var appends := PrivateRun(json, def, snapshots, i, streamId, t, n);
  }
}
