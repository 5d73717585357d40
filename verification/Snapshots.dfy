/** Event-backed snapshots: states cached as events of the stream they summarise, written by
    the append that fills the quota. */
module Snapshots {
  import opened Options

  const SNAPSHOT_EVENT_TYPE_SUFFIX := "Snapshot"

  /** An event as it reads; the state of a snapshot event is its data. */
  datatype Event<D> = Event(eventType: string, data: D, tombstoned: bool)

  type Log<D> = seq<Event<D>>

  /** defineSnapshot: a handler sees the state, the stream version and the event. */
  datatype Definition<!D> = Definition(streamPrefix: string, snapshotName: string, every: int, initialState: D,
                                       evolve: map<string, (D, nat, Event<D>) -> D>) {
    function EventType(): string {
      snapshotName + SNAPSHOT_EVENT_TYPE_SUFFIX
    }
  }

  /** What a state reads as after it was stored as JSON. */
  type Codec<!D> = D -> D

  predicate Reserved(eventType: string) {
    |eventType| >= |SNAPSHOT_EVENT_TYPE_SUFFIX| &&
    eventType[|eventType| - |SNAPSHOT_EVENT_TYPE_SUFFIX|..] == SNAPSHOT_EVENT_TYPE_SUFFIX
  }

  // ---- Loading ----

  /** The stream version of the latest event of a type, 0 when there is none. */
  function LatestOf<D>(log: Log<D>, eventType: string): (version: nat)
    ensures version <= |log| && (version > 0 ==> log[version - 1].eventType == eventType)
    ensures forall i :: version <= i < |log| ==> log[i].eventType != eventType
  {
    if log == [] then 0
    else if log[|log| - 1].eventType == eventType then |log|
    else LatestOf(log[..|log| - 1], eventType)
  }

  /** The state after the events with versions i + 1 .. k. */
  function Evolved<D>(def: Definition<D>, base: D, log: Log<D>, i: nat, k: nat): D
    requires i <= k <= |log|
  {
    if k == i then base
    else
      var state, event := Evolved(def, base, log, i, k - 1), log[k - 1];
      if event.eventType in def.evolve then def.evolve[event.eventType](state, k, event) else state
  }

  /** How many of them have a handler. */
  function SourceEvents<D>(def: Definition<D>, log: Log<D>, i: nat, k: nat): nat
    requires i <= k <= |log|
  {
    if k == i then 0
    else SourceEvents(def, log, i, k - 1) + if log[k - 1].eventType in def.evolve then 1 else 0
  }

  /** Replay of the whole stream. */
  function FullReplay<D>(def: Definition<D>, log: Log<D>): D {
    Evolved(def, def.initialState, log, 0, |log|)
  }

  /** getSnapshotBase: the version and the state replay starts from. */
  function BaseVersion<D>(def: Definition<D>, log: Log<D>): (version: nat)
    ensures version <= |log|
  {
    var latest := LatestOf(log, def.EventType());
    if latest > 0 && !log[latest - 1].tombstoned then latest else 0
  }

  function BaseState<D>(def: Definition<D>, log: Log<D>): D {
    if BaseVersion(def, log) > 0 then log[BaseVersion(def, log) - 1].data else def.initialState
  }

  lemma NextEvolved<D>(def: Definition<D>, base: D, log: Log<D>, i: nat, k: nat)
    requires i <= k < |log|
    ensures var state := Evolved(def, base, log, i, k);
            Evolved(def, base, log, i, k + 1) ==
              if log[k].eventType in def.evolve then def.evolve[log[k].eventType](state, k + 1, log[k]) else state
    ensures SourceEvents(def, log, i, k + 1) == SourceEvents(def, log, i, k) + if log[k].eventType in def.evolve then 1 else 0
  {
  }

  datatype Loaded<D> = Loaded(state: D, version: nat, snapshotVersion: Option<nat>, replayedEvents: nat)

  /** loadSnapshotState. */
  method LoadSnapshotState<D>(def: Definition<D>, log: Log<D>) returns (r: Loaded<D>)
    ensures r.version == |log|
    ensures r.snapshotVersion == if BaseVersion(def, log) > 0 then Some(BaseVersion(def, log)) else None
    ensures r.state == Evolved(def, BaseState(def, log), log, BaseVersion(def, log), |log|)
    ensures r.replayedEvents == SourceEvents(def, log, BaseVersion(def, log), |log|)
  {
    var latest := LatestOf(log, def.EventType());
    var state, snapshotVersion := def.initialState, None;
    if latest > 0 && !log[latest - 1].tombstoned {
      state, snapshotVersion := log[latest - 1].data, Some(latest);
    }
    ghost var base, start := BaseVersion(def, log), BaseState(def, log);
    assert state == start && snapshotVersion == if base > 0 then Some(base) else None;
    hide LatestOf, BaseVersion, BaseState;
    var replayFromVersion := if snapshotVersion.Some? then snapshotVersion.value + 1 else 1;
    var events := log[replayFromVersion - 1..];
    var version := if events != [] then replayFromVersion - 1 + |events|
                   else if snapshotVersion.Some? then snapshotVersion.value else 0;
    var replayedEvents := 0;
    assert Evolved(def, start, log, base, base) == start && SourceEvents(def, log, base, base) == 0;
    hide Evolved, SourceEvents;
    for n := 0 to |events|
      invariant state == Evolved(def, start, log, base, base + n)
      invariant replayedEvents == SourceEvents(def, log, base, base + n)
    {
      var event := events[n];
      assert event == log[base + n];
      NextEvolved(def, start, log, base, base + n);
      if event.eventType in def.evolve {
        state := def.evolve[event.eventType](state, replayFromVersion + n, event);
        replayedEvents := replayedEvents + 1;
      }
    }
    r := Loaded(state, version, snapshotVersion, replayedEvents);
  }

  // ---- Writing ----

  /** The stream after updateSnapshotAfterAppend. */
  function Updated<D>(json: Codec<D>, def: Definition<D>, log: Log<D>): Log<D> {
    var base := BaseVersion(def, log);
    if def.every <= 0 || SourceEvents(def, log, base, |log|) < def.every then log
    else log + [Event(def.EventType(), json(Evolved(def, BaseState(def, log), log, base, |log|)), false)]
  }

  /** A registered snapshot that updateRegisteredSnapshots updates for this append. */
  predicate Concerned<D>(def: Definition<D>, streamId: string, events: Log<D>) {
    def.streamPrefix + "-" <= streamId && exists i :: 0 <= i < |events| && events[i].eventType in def.evolve
  }

  /** The stream after the first k registered snapshots. */
  function UpdatedBy<D>(json: Codec<D>, snapshots: seq<Definition<D>>, k: nat, streamId: string, events: Log<D>, log: Log<D>): Log<D>
    requires k <= |snapshots|
  {
    if k == 0 then log
    else
      var before := UpdatedBy(json, snapshots, k - 1, streamId, events, log);
      if Concerned(snapshots[k - 1], streamId, events) then Updated(json, snapshots[k - 1], before) else before
  }

  /** The stream after an accepted append. */
  function Appended<D>(json: Codec<D>, snapshots: seq<Definition<D>>, streamId: string, log: Log<D>, events: Log<D>): Log<D> {
    UpdatedBy(json, snapshots, |snapshots|, streamId, events, log + events)
  }

  /** What append accepts: at least one event, none of a reserved type. */
  predicate Acceptable<D>(events: Log<D>) {
    events != [] && forall i :: 0 <= i < |events| ==> !Reserved(events[i].eventType)
  }

  /** The store as one appending transaction sees it while it holds the stream's lock. */
  class Store<!D> {
    var streams: map<string, Log<D>>
    const snapshots: seq<Definition<D>>
    const json: Codec<D>

    function LogOf(streamId: string): Log<D>
      reads this
    {
      if streamId in streams then streams[streamId] else []
    }

    constructor (snapshots: seq<Definition<D>>, json: Codec<D>)
      ensures streams == map[] && this.snapshots == snapshots && this.json == json
    {
      this.snapshots, this.json := snapshots, json;
      streams := map[];
    }

    /** appendToStream for a snapshot event: only reserved types, at the expected version. */
    method AppendSnapshot(streamId: string, expectedVersion: nat, event: Event<D>) returns (ok: bool)
      requires expectedVersion > 0
      modifies this`streams
      ensures ok <==> Reserved(event.eventType) && expectedVersion == |old(LogOf(streamId))|
      ensures streams == if ok then old(streams)[streamId := old(LogOf(streamId)) + [event]] else old(streams)
    {
      if !Reserved(event.eventType) || expectedVersion != |LogOf(streamId)| {
        return false;
      }
      streams := streams[streamId := LogOf(streamId) + [event]];
      ok := true;
    }

    /** updateAfterAppend: the snapshot is written at the version just loaded, so it never
        conflicts. */
    method UpdateAfterAppend(def: Definition<D>, streamId: string)
      requires streamId in streams && streams[streamId] != []
      modifies this`streams
      ensures streams == old(streams)[streamId := Updated(json, def, old(streams[streamId]))]
    {
      if def.every <= 0 {
        return;
      }
      var result := LoadSnapshotState(def, streams[streamId]);
      if result.replayedEvents < def.every {
        return;
      }
      SnapshotTypeIsReserved(def);
      var ok := AppendSnapshot(streamId, result.version, Event(def.EventType(), json(result.state), false));
    }

    /** append, once the stream is locked and its version accepted.  An append answered from its
        idempotency key changes nothing, the snapshots included. */
    method Append(streamId: string, events: Log<D>, isDuplicate: bool) returns (ok: bool)
      modifies this`streams
      ensures ok <==> Acceptable(events)
      ensures streams == if ok && !isDuplicate
                         then old(streams)[streamId := Appended(json, snapshots, streamId, old(LogOf(streamId)), events)]
                         else old(streams)
    {
      if |events| == 0 || exists i :: 0 <= i < |events| && Reserved(events[i].eventType) {
        return false;
      }
      ok := true;
      if isDuplicate {
        return;
      }
      hide Updated, Reserved;
      ghost var log := LogOf(streamId) + events;
      streams := streams[streamId := LogOf(streamId) + events];
      for k := 0 to |snapshots|
        invariant streams == old(streams)[streamId := UpdatedBy(json, snapshots, k, streamId, events, log)]
        invariant UpdatedBy(json, snapshots, k, streamId, events, log) != []
      {
        var snapshot := snapshots[k];
        if snapshot.streamPrefix + "-" <= streamId &&
           exists i :: 0 <= i < |events| && events[i].eventType in snapshot.evolve
        {
          UpdateAfterAppend(snapshot, streamId);
        }
      }
    }
  }

  lemma SnapshotTypeIsReserved<D>(def: Definition<D>)
    ensures Reserved(def.EventType())
  {
    assert def.EventType()[|def.snapshotName|..] == SNAPSHOT_EVENT_TYPE_SUFFIX;
  }

  // ---- Snapshots against replay ----

  lemma {:induction false} EvolvedSplit<D>(def: Definition<D>, base: D, log: Log<D>, i: nat, k: nat)
    requires i <= k <= |log|
    ensures Evolved(def, base, log, 0, k) == Evolved(def, Evolved(def, base, log, 0, i), log, i, k)
  {
    if k > i {
      EvolvedSplit(def, base, log, i, k - 1);
    }
  }

  /** Only the events in the range count. */
  lemma {:induction false} EvolvedPrefix<D>(def: Definition<D>, base: D, log: Log<D>, more: Log<D>, i: nat, k: nat)
    requires i <= k <= |log|
    ensures Evolved(def, base, log + more, i, k) == Evolved(def, base, log, i, k)
    ensures SourceEvents(def, log + more, i, k) == SourceEvents(def, log, i, k)
  {
    if k > i {
      EvolvedPrefix(def, base, log, more, i, k - 1);
    }
  }

  /** The definition's snapshot event at version i + 1 holds the replay of what precedes it. */
  ghost predicate Faithful<D>(def: Definition<D>, log: Log<D>) {
    forall i :: 0 <= i < |log| && log[i].eventType == def.EventType() && !log[i].tombstoned ==>
      log[i].data == Evolved(def, def.initialState, log, 0, i)
  }

  /** A load equals full replay when the snapshot events are faithful; and also when the
      latest one reads as a tombstone, for then everything is replayed. */
  lemma LoadIsReplay<D>(def: Definition<D>, log: Log<D>)
    requires def.EventType() !in def.evolve
    requires Faithful(def, log) || BaseVersion(def, log) == 0
    ensures Evolved(def, BaseState(def, log), log, BaseVersion(def, log), |log|) == FullReplay(def, log)
  {
    var base := BaseVersion(def, log);
    if base > 0 {
      assert Evolved(def, def.initialState, log, 0, base) == log[base - 1].data;
      EvolvedSplit(def, def.initialState, log, base, |log|);
    }
  }

  lemma FaithfulExtended<D>(def: Definition<D>, log: Log<D>, event: Event<D>)
    requires Faithful(def, log)
    requires event.eventType == def.EventType() && !event.tombstoned ==> event.data == FullReplay(def, log)
    ensures Faithful(def, log + [event])
  {
    var longer := log + [event];
    forall i | 0 <= i < |longer| && longer[i].eventType == def.EventType() && !longer[i].tombstoned
      ensures longer[i].data == Evolved(def, def.initialState, longer, 0, i)
    {
      EvolvedPrefix(def, def.initialState, log, [event], 0, i);
    }
  }

  lemma {:induction false} FaithfulAppended<D>(def: Definition<D>, log: Log<D>, events: Log<D>)
    requires Faithful(def, log) && forall i :: 0 <= i < |events| ==> !Reserved(events[i].eventType)
    ensures Faithful(def, log + events)
  {
    if events == [] {
      assert log + events == log;
    } else {
      var init, last := events[..|events| - 1], events[|events| - 1];
      FaithfulAppended(def, log, init);
      SnapshotTypeIsReserved(def);
      FaithfulExtended(def, log + init, last);
      assert log + events == log + init + [last];
    }
  }

  /** A definition that an append to the stream may have to write a snapshot for. */
  predicate Active<D>(def: Definition<D>, streamId: string) {
    def.every > 0 && def.streamPrefix + "-" <= streamId
  }

  /** Whatever writes snapshots of the definition's name to the stream folds as it does; quotas
      and other prefixes do not matter. */
  ghost predicate OneFold<D>(def: Definition<D>, snapshots: seq<Definition<D>>, streamId: string) {
    forall i :: 0 <= i < |snapshots| && Active(snapshots[i], streamId) && snapshots[i].snapshotName == def.snapshotName ==>
      snapshots[i].initialState == def.initialState && snapshots[i].evolve == def.evolve
  }

  lemma SameTypeSameName<D>(d: Definition<D>, def: Definition<D>)
    requires d.EventType() == def.EventType()
    ensures d.snapshotName == def.snapshotName
  {
    assert |d.snapshotName| == |def.snapshotName|;
    assert d.EventType()[..|d.snapshotName|] == d.snapshotName;
    assert def.EventType()[..|def.snapshotName|] == def.snapshotName;
  }

  /** JSON keeps every state the replay goes through. */
  ghost predicate KeptByJson<D>(json: Codec<D>, def: Definition<D>, log: Log<D>) {
    forall k :: 0 <= k <= |log| ==>
      json(Evolved(def, def.initialState, log, 0, k)) == Evolved(def, def.initialState, log, 0, k)
  }

  lemma KeptBefore<D>(json: Codec<D>, def: Definition<D>, log: Log<D>, more: Log<D>)
    requires KeptByJson(json, def, log + more)
    ensures KeptByJson(json, def, log) && json(FullReplay(def, log)) == FullReplay(def, log)
  {
    forall k | 0 <= k <= |log|
      ensures json(Evolved(def, def.initialState, log, 0, k)) == Evolved(def, def.initialState, log, 0, k)
    {
      EvolvedPrefix(def, def.initialState, log, more, 0, k);
    }
  }

  /** Definitions that fold alike load alike. */
  lemma {:induction false} SameFold<D>(d: Definition<D>, def: Definition<D>, base: D, log: Log<D>, i: nat, k: nat)
    requires i <= k <= |log| && d.evolve == def.evolve
    ensures Evolved(d, base, log, i, k) == Evolved(def, base, log, i, k)
  {
    if k > i {
      SameFold(d, def, base, log, i, k - 1);
    }
  }

  lemma {:induction false} UpdatedByExtends<D>(json: Codec<D>, snapshots: seq<Definition<D>>, j: nat, k: nat, streamId: string,
                                               events: Log<D>, log: Log<D>)
    requires j <= k <= |snapshots|
    ensures UpdatedBy(json, snapshots, j, streamId, events, log) <= UpdatedBy(json, snapshots, k, streamId, events, log)
  {
    if k > j {
      UpdatedByExtends(json, snapshots, j, k - 1, streamId, events, log);
    }
  }

  lemma FaithfulUpdate<D>(json: Codec<D>, def: Definition<D>, d: Definition<D>, streamId: string, log: Log<D>)
    requires def.EventType() !in def.evolve && Faithful(def, log) && json(FullReplay(def, log)) == FullReplay(def, log)
    requires Active(d, streamId) && d.snapshotName == def.snapshotName ==>
               d.initialState == def.initialState && d.evolve == def.evolve
    requires d.streamPrefix + "-" <= streamId
    ensures Faithful(def, Updated(json, d, log))
  {
    if Updated(json, d, log) != log {
      if d.EventType() == def.EventType() {
        SameTypeSameName(d, def);
        LoadIsReplay(def, log);
        SameFold(d, def, BaseState(d, log), log, BaseVersion(d, log), |log|);
      }
      FaithfulExtended(def, log, Updated(json, d, log)[|log|]);
    }
  }

  lemma {:induction false} FaithfulUpdated<D>(json: Codec<D>, def: Definition<D>, snapshots: seq<Definition<D>>, k: nat,
                                              streamId: string, events: Log<D>, log: Log<D>)
    requires k <= |snapshots| && def.EventType() !in def.evolve && OneFold(def, snapshots, streamId) && Faithful(def, log)
    requires KeptByJson(json, def, UpdatedBy(json, snapshots, k, streamId, events, log))
    ensures Faithful(def, UpdatedBy(json, snapshots, k, streamId, events, log))
  {
    if k > 0 {
      var before, after := UpdatedBy(json, snapshots, k - 1, streamId, events, log), UpdatedBy(json, snapshots, k, streamId, events, log);
      UpdatedByExtends(json, snapshots, k - 1, k, streamId, events, log);
      assert after == before + after[|before|..];
      KeptBefore(json, def, before, after[|before|..]);
      FaithfulUpdated(json, def, snapshots, k - 1, streamId, events, log);
      if Concerned(snapshots[k - 1], streamId, events) {
        hide Faithful, KeptByJson, Updated;
        FaithfulUpdate(json, def, snapshots[k - 1], streamId, before);
      }
    }
  }

  // ---- Histories ----

  /** One append, with the snapshots registered in the process that made it. */
  datatype Batch<!D> = Batch(snapshots: seq<Definition<D>>, events: Log<D>)

  /** The stream after a history of accepted appends. */
  function History<D>(json: Codec<D>, streamId: string, batches: seq<Batch<D>>): Log<D> {
    if batches == [] then []
    else
      var last := batches[|batches| - 1];
      Appended(json, last.snapshots, streamId, History(json, streamId, batches[..|batches| - 1]), last.events)
  }

  ghost predicate Accepted<D>(batches: seq<Batch<D>>) {
    forall n :: 0 <= n < |batches| ==> Acceptable(batches[n].events)
  }

  lemma {:induction false} HistoryFaithful<D>(json: Codec<D>, def: Definition<D>, streamId: string, batches: seq<Batch<D>>)
    requires Accepted(batches) && def.EventType() !in def.evolve && KeptByJson(json, def, History(json, streamId, batches))
    requires forall n :: 0 <= n < |batches| ==> OneFold(def, batches[n].snapshots, streamId)
    ensures Faithful(def, History(json, streamId, batches))
  {
    if batches != [] {
      var last, before := batches[|batches| - 1], History(json, streamId, batches[..|batches| - 1]);
      var after := History(json, streamId, batches);
      UpdatedByExtends(json, last.snapshots, 0, |last.snapshots|, streamId, last.events, before + last.events);
      assert after == before + after[|before|..];
      KeptBefore(json, def, before, after[|before|..]);
      HistoryFaithful(json, def, streamId, batches[..|batches| - 1]);
      FaithfulAppended(def, before, last.events);
      FaithfulUpdated(json, def, last.snapshots, |last.snapshots|, streamId, last.events, before + last.events);
    }
  }

  /** A snapshot refines replay: after any history of appends, with any snapshots registered
      beside it and whether or not it was registered itself, loading a snapshot gives the fold
      of the whole stream from the initial state.  It takes that the definition has no handler
      for its own snapshots, that its name writes one fold to the stream, and that JSON keeps
      the states. */
  lemma SnapshotRefinesReplay<D>(json: Codec<D>, def: Definition<D>, streamId: string, batches: seq<Batch<D>>)
    requires Accepted(batches) && def.EventType() !in def.evolve && KeptByJson(json, def, History(json, streamId, batches))
    requires forall n :: 0 <= n < |batches| ==> OneFold(def, batches[n].snapshots, streamId)
    ensures var log := History(json, streamId, batches);
            Evolved(def, BaseState(def, log), log, BaseVersion(def, log), |log|) == FullReplay(def, log)
  {
    HistoryFaithful(json, def, streamId, batches);
    LoadIsReplay(def, History(json, streamId, batches));
  }

  // ---- Why the conditions are there ----

  /** A definition over numbers that counts the events of the given types. */
  function Counter(name: string, every: int, initial: int, eventTypes: set<string>): Definition<int> {
    Definition("S", name, every, initial, map t | t in eventTypes :: (state: int, version: nat, event: Event<int>) => state + 1)
  }

  function Plain(state: int): int {
    state
  }

  /** A definition of one name writes the first snapshot of a stream with one event, and another
      of that name loads from it. */
  lemma LoadedFromOther(json: Codec<int>, def: Definition<int>, other: Definition<int>)
    requires def.snapshotName == other.snapshotName == "N" && other.streamPrefix == "S" && other.every == 1
    requires "A" in other.evolve && "A" in def.evolve
    ensures var events := [Event("A", 0, false)];
            var written := json(other.evolve["A"](other.initialState, 1, events[0]));
            var log := Appended(json, [other], "S-1", [], events);
            log == events + [Event("NSnapshot", written, false)] &&
            Evolved(def, BaseState(def, log), log, BaseVersion(def, log), |log|) == written &&
            FullReplay(def, log) ==
              var first := def.evolve["A"](def.initialState, 1, events[0]);
              if "NSnapshot" in def.evolve then def.evolve["NSnapshot"](first, 2, log[1]) else first
  {
    var events := [Event("A", 0, false)];
    var written := json(other.evolve["A"](other.initialState, 1, events[0]));
    var log := events + [Event("NSnapshot", written, false)];
    assert "N" + "Snapshot" == "NSnapshot" && [] + events == events;
    FirstUpdate(json, other, events[0]);
    OneUpdate(json, other, events);
    FirstTwo(def, log);
  }

  lemma FirstUpdate(json: Codec<int>, other: Definition<int>, event: Event<int>)
    requires other.every == 1 && event.eventType in other.evolve && event.eventType != other.EventType()
    ensures Updated(json, other, [event]) ==
              [event] + [Event(other.EventType(), json(other.evolve[event.eventType](other.initialState, 1, event)), false)]
  {
    assert Evolved(other, other.initialState, [event], 0, 0) == other.initialState;
    assert SourceEvents(other, [event], 0, 0) == 0;
    assert LatestOf([event][..0], other.EventType()) == 0;
  }

  lemma {:induction false} OneUpdate(json: Codec<int>, d: Definition<int>, events: Log<int>)
    requires d.streamPrefix == "S" && |events| == 1 && events[0].eventType in d.evolve
    ensures UpdatedBy(json, [d], 1, "S-1", events, events) == Updated(json, d, events)
  {
    hide Updated;
    assert "S" + "-" <= "S-1" && Concerned(d, "S-1", events);
    assert UpdatedBy(json, [d], 0, "S-1", events, events) == events;
  }

  lemma FirstTwo(def: Definition<int>, log: Log<int>)
    requires |log| == 2 && log[0].eventType in def.evolve && log[1].eventType == def.EventType() && !log[1].tombstoned
    ensures BaseVersion(def, log) == 2 && Evolved(def, BaseState(def, log), log, 2, 2) == log[1].data
    ensures FullReplay(def, log) ==
              var first := def.evolve[log[0].eventType](def.initialState, 1, log[0]);
              if log[1].eventType in def.evolve then def.evolve[log[1].eventType](first, 2, log[1]) else first
  {
    assert Evolved(def, def.initialState, log, 0, 0) == def.initialState;
    assert Evolved(def, def.initialState, log, 0, 1) == def.evolve[log[0].eventType](def.initialState, 1, log[0]);
  }

  /** Two definitions under one name: loading one may start from a state of the other. */
  lemma SharedNameBreaksReplay()
    ensures var def, other := Counter("N", 1, 0, {"A"}), Counter("N", 1, 100, {"A"});
            var log := Appended(Plain, [other], "S-1", [], [Event("A", 0, false)]);
            def.EventType() !in def.evolve &&
            Evolved(def, BaseState(def, log), log, BaseVersion(def, log), |log|) == 101 && FullReplay(def, log) == 1
  {
    hide Appended, Evolved, FullReplay, BaseVersion, BaseState;
    assert "N" + "Snapshot" == "NSnapshot";
    LoadedFromOther(Plain, Counter("N", 1, 0, {"A"}), Counter("N", 1, 100, {"A"}));
  }

  /** A definition that handles its own snapshots: replay counts them, a load does not. */
  lemma OwnHandlerBreaksReplay()
    ensures var def := Counter("N", 1, 0, {"A", "NSnapshot"});
            var log := Appended(Plain, [def], "S-1", [], [Event("A", 0, false)]);
            OneFold(def, [def], "S-1") &&
            Evolved(def, BaseState(def, log), log, BaseVersion(def, log), |log|) == 1 && FullReplay(def, log) == 2
  {
    hide Appended, Evolved, FullReplay, BaseVersion, BaseState;
    assert "N" + "Snapshot" == "NSnapshot";
    LoadedFromOther(Plain, Counter("N", 1, 0, {"A", "NSnapshot"}), Counter("N", 1, 0, {"A", "NSnapshot"}));
  }

  /** A state that JSON does not keep: a load continues from what was stored. */
  lemma JsonLossBreaksReplay()
    ensures var def, lossy := Counter("N", 1, 0, {"A"}), (state: int) => 0;
            var log := Appended(lossy, [def], "S-1", [], [Event("A", 0, false)]);
            def.EventType() !in def.evolve && OneFold(def, [def], "S-1") &&
            Evolved(def, BaseState(def, log), log, BaseVersion(def, log), |log|) == 0 && FullReplay(def, log) == 1
  {
    hide Appended, Evolved, FullReplay, BaseVersion, BaseState;
    assert "N" + "Snapshot" == "NSnapshot";
    LoadedFromOther((state: int) => 0, Counter("N", 1, 0, {"A"}), Counter("N", 1, 0, {"A"}));
  }
}
