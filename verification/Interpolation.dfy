/** The client's snapshot buffer: expanding deltas, recovering baselines, and
    finding the pair of snapshots to interpolate between. */
module Interpolation {
  import opened Collections
  import opened Serial
  import opened Protocol
  import opened World

  datatype Config = Config(
    targetDelayMs: real,
    minBufferSnapshots: nat,
    maxBufferSnapshots: nat,
    timeCorrectionRate: real,
    snapshotRetentionMs: real)

  datatype Timed = Timed(snapshot: WorldSnapshot, time: real)

  datatype Engine = Engine(
    config: Config,
    snapshots: seq<Timed>,
    serverTimeOffset: real,
    renderTime: real,
    known: View,
    ready: bool,
    latestServerTick: u32,
    lastSnapshotTime: real,
    knowledgeTick: u32)

  function FreshEngine(config: Config): Engine {
    Engine(config, [], 0.0, 0.0, map[], false, 0, 0.0, 0)
  }

  // ------------------------------------------------------------------- expand

  /** Searches from the newest end. */
  function FindByTick(buffer: seq<Timed>, tick: u32): Option<WorldSnapshot> {
    if buffer == [] then None
    else if buffer[|buffer| - 1].snapshot.tick == tick then Some(buffer[|buffer| - 1].snapshot)
    else FindByTick(buffer[..|buffer| - 1], tick)
  }

  /** What the client builds a delta upon: its current knowledge if that is the
      baseline, else the baseline from its buffer. */
  function Baseline(e: Engine, tick: u32): Option<View> {
    if tick == e.knowledgeTick then Some(e.known)
    else match FindByTick(e.snapshots, tick)
      case Some(s) => Some(ViewOf(s.entities))
      case None => None
  }

  /** The view after a snapshot, or nothing if its baseline is lost. */
  function Expanded(e: Engine, s: WorldSnapshot): Option<View> {
    if !s.isDelta then Some(RemoveAll(ViewOf(s.entities), s.removedEntityIds))
    else match Baseline(e, s.baselineTick)
      case Some(base) => Some(ApplyDelta(base, s.entities, s.removedEntityIds))
      case None => None
  }

  function FullSnapshot(s: WorldSnapshot, listing: seq<EntityState>): WorldSnapshot {
    if s.isDelta then WorldSnapshot(s.tick, s.serverTimeMs, s.lastCommandAck, 0, false, listing, []) else s
  }

  // -------------------------------------------------------------------- store

  /** First position holding a later time. */
  function InsertPosition(buffer: seq<Timed>, time: real): (p: nat)
    ensures p <= |buffer|
    ensures forall i :: 0 <= i < p ==> buffer[i].time <= time
    ensures p < |buffer| ==> buffer[p].time > time
  {
    if buffer == [] || buffer[0].time > time then 0 else 1 + InsertPosition(buffer[1..], time)
  }

  function Insert(buffer: seq<Timed>, t: Timed): seq<Timed> {
    InsertAt(buffer, InsertPosition(buffer, t.time), t)
  }

  function Store(buffer: seq<Timed>, t: Timed, max: nat): seq<Timed> { KeepLast(Insert(buffer, t), max) }

  function Retain(buffer: seq<Timed>, cutoff: real): seq<Timed> {
    if buffer == [] then []
    else Retain(buffer[..|buffer| - 1], cutoff) +
         (if buffer[|buffer| - 1].time > cutoff then [buffer[|buffer| - 1]] else [])
  }

  ghost predicate Sorted(buffer: seq<Timed>) {
    forall i, j :: 0 <= i < j < |buffer| ==> buffer[i].time <= buffer[j].time
  }

  lemma InsertedAt(buffer: seq<Timed>, t: Timed, i: nat)
    requires i <= |buffer|
    ensures var p := InsertPosition(buffer, t.time);
            Insert(buffer, t)[i] == if i < p then buffer[i] else if i == p then t else buffer[i - 1]
  {
  }

  lemma StoreKeepsSorted(buffer: seq<Timed>, t: Timed, max: nat)
    requires Sorted(buffer)
    ensures Sorted(Store(buffer, t, max))
  {
    var p := InsertPosition(buffer, t.time);
    var inserted := Insert(buffer, t);
    forall i, j | 0 <= i < j < |inserted| ensures inserted[i].time <= inserted[j].time {
      InsertedAt(buffer, t, i);
      InsertedAt(buffer, t, j);
    }
  }

  lemma {:induction false} RetainExactly(buffer: seq<Timed>, cutoff: real)
    ensures forall t :: t in Retain(buffer, cutoff) <==> t in buffer && t.time > cutoff
  {
    if buffer == [] {
    } else {
      var front, last := buffer[..|buffer| - 1], buffer[|buffer| - 1];
      assert buffer == front + [last];
      RetainExactly(front, cutoff);
    }
  }

  lemma {:induction false} RetainKeepsSorted(buffer: seq<Timed>, cutoff: real)
    requires Sorted(buffer)
    ensures Sorted(Retain(buffer, cutoff))
  {
    if buffer == [] {
    } else {
      var front, last := buffer[..|buffer| - 1], buffer[|buffer| - 1];
      var kept := Retain(front, cutoff);
      RetainKeepsSorted(front, cutoff);
      forall i | 0 <= i < |kept| ensures kept[i].time <= last.time {
        RetainExactly(front, cutoff);
        assert kept[i] in front;
      }
    }
  }

  // --------------------------------------------------------------------- push

  function UpdateClock(e: Engine, s: WorldSnapshot, localTime: real): Engine {
    var serverTime := s.serverTimeMs as real;
    var newOffset := serverTime - localTime;
    var e' := e.(latestServerTick := if s.tick > e.latestServerTick then s.tick else e.latestServerTick,
                 lastSnapshotTime := localTime);
    if e.snapshots == [] then
      e'.(serverTimeOffset := newOffset, renderTime := serverTime - e.config.targetDelayMs)
    else
      e'.(serverTimeOffset := e.serverTimeOffset + (newOffset - e.serverTimeOffset) * e.config.timeCorrectionRate)
  }

  /** Every further snapshot brings the clock offset nearer to its own by the
      correction rate. */
  lemma ClockApproaches(e: Engine, s: WorldSnapshot, localTime: real)
    requires e.snapshots != []
    ensures var offset := s.serverTimeMs as real - localTime;
            UpdateClock(e, s, localTime).serverTimeOffset - offset
            == (e.serverTimeOffset - offset) * (1.0 - e.config.timeCorrectionRate)
  {
    var gap, rate := e.serverTimeOffset - (s.serverTimeMs as real - localTime), e.config.timeCorrectionRate;
    assert gap * (1.0 - rate) == gap - gap * rate;
    assert (-gap) * rate == -(gap * rate);
  }

  /** `listing` is the order in which the map of known entities is listed. */
  function Push(e: Engine, s: WorldSnapshot, localTime: real, listing: seq<EntityState>): Engine {
    var clocked := UpdateClock(e, s, localTime);
    match Expanded(e, s)
    case None => clocked
    case Some(view) =>
      Keep(clocked.(known := view, knowledgeTick := s.tick), Timed(FullSnapshot(s, listing), s.serverTimeMs as real))
  }

  function Keep(e: Engine, t: Timed): Engine {
    var stored := Store(e.snapshots, t, e.config.maxBufferSnapshots);
    e.(snapshots := stored, ready := e.ready || |stored| >= e.config.minBufferSnapshots)
  }

  function Cleanup(e: Engine): Engine {
    e.(snapshots := Retain(e.snapshots, e.renderTime - e.config.snapshotRetentionMs))
  }

  /** `reset` clears the known entities but keeps `knowledge_tick`. */
  function Reset(e: Engine): Engine {
    Engine(e.config, [], 0.0, 0.0, map[], false, 0, 0.0, e.knowledgeTick)
  }

  // ----------------------------------------------------- what the buffer keeps

  function StoreAll(entries: seq<Timed>, max: nat): seq<Timed> {
    if entries == [] then [] else Store(StoreAll(entries[..|entries| - 1], max), entries[|entries| - 1], max)
  }

  /** The same without ever evicting: everything stored, in order of time. */
  function SortAll(entries: seq<Timed>): (sorted: seq<Timed>)
    ensures |sorted| == |entries|
  {
    if entries == [] then [] else Insert(SortAll(entries[..|entries| - 1]), entries[|entries| - 1])
  }

  function CountLater(entries: seq<Timed>, time: real): (n: nat)
    ensures n <= |entries|
  {
    if entries == [] then 0
    else CountLater(entries[..|entries| - 1], time) + (if entries[|entries| - 1].time > time then 1 else 0)
  }

  /** How many entries sort after entry `i`: those with a later time, and those
      with the same time stored after it. */
  function After(entries: seq<Timed>, i: nat): (n: nat)
    requires i < |entries|
    ensures n < |entries|
  {
    var front, last := entries[..|entries| - 1], entries[|entries| - 1];
    if i == |entries| - 1 then CountLater(front, last.time)
    else After(front, i) + (if last.time >= entries[i].time then 1 else 0)
  }

  lemma InsertMembers(buffer: seq<Timed>, t: Timed)
    ensures forall u :: u in Insert(buffer, t) <==> u in buffer || u == t
  {
    var p := InsertPosition(buffer, t.time);
    assert buffer == buffer[..p] + buffer[p..];
  }

  lemma PositionIs(buffer: seq<Timed>, time: real, p: nat)
    requires p <= |buffer| && forall i :: 0 <= i < p ==> buffer[i].time <= time
    requires p < |buffer| ==> buffer[p].time > time
    ensures InsertPosition(buffer, time) == p
  {
  }

  lemma {:induction false} SortAllIsSorted(entries: seq<Timed>)
    ensures Sorted(SortAll(entries))
  {
    if entries == [] {
    } else {
      var front := SortAll(entries[..|entries| - 1]);
      SortAllIsSorted(entries[..|entries| - 1]);
      StoreKeepsSorted(front, entries[|entries| - 1], |entries|);
    }
  }

  /** Evicting before an insertion changes nothing that is kept after it. */
  lemma StoreAfterEvict(buffer: seq<Timed>, t: Timed, max: nat)
    requires Sorted(buffer)
    ensures Store(KeepLast(buffer, max), t, max) == KeepLast(Insert(buffer, t), max)
  {
    var p, kept := InsertPosition(buffer, t.time), KeepLast(buffer, max);
    var p' := if p + |kept| >= |buffer| then p + |kept| - |buffer| else 0;
    PositionIs(kept, t.time, p');
    EvictBeforeInsert(buffer, p, t, max);
  }

  /** Evicting as one goes keeps exactly the last `max` of everything in order. */
  lemma {:induction false} KeepsNewest(entries: seq<Timed>, max: nat)
    ensures StoreAll(entries, max) == KeepLast(SortAll(entries), max)
  {
    if entries == [] {
    } else {
      var front := entries[..|entries| - 1];
      KeepsNewest(front, max);
      SortAllIsSorted(front);
      StoreAfterEvict(SortAll(front), entries[|entries| - 1], max);
    }
  }

  lemma {:induction false} CountIsPosition(entries: seq<Timed>, time: real)
    ensures CountLater(entries, time) == |entries| - InsertPosition(SortAll(entries), time)
  {
    if entries == [] {
    } else {
      var front, last := entries[..|entries| - 1], entries[|entries| - 1];
      CountIsPosition(front, time);
      SortAllIsSorted(front);
      PositionAfterInsert(SortAll(front), last, time);
    }
  }

  lemma PositionAfterInsert(sorted: seq<Timed>, t: Timed, time: real)
    requires Sorted(sorted)
    ensures InsertPosition(Insert(sorted, t), time)
         == InsertPosition(sorted, time) + (if t.time > time then 0 else 1)
  {
    var r := InsertPosition(sorted, time);
    var r' := if t.time > time then r else r + 1;
    forall i | 0 <= i < r' ensures Insert(sorted, t)[i].time <= time { InsertedAt(sorted, t, i); }
    if r' < |Insert(sorted, t)| { InsertedAt(sorted, t, r'); }
    PositionIs(Insert(sorted, t), time, r');
  }

  /** `After` is the place in the sorted order, counted from the newest end. */
  lemma {:induction false} SortedAt(entries: seq<Timed>, i: nat)
    requires i < |entries|
    ensures SortAll(entries)[|entries| - 1 - After(entries, i)] == entries[i]
  {
    var front, last := entries[..|entries| - 1], entries[|entries| - 1];
    SortAllIsSorted(front);
    if i == |entries| - 1 {
      CountIsPosition(front, last.time);
      InsertedAt(SortAll(front), last, InsertPosition(SortAll(front), last.time));
    } else {
      SortedAt(front, i);
      var place := |front| - 1 - After(front, i);
      InsertedAt(SortAll(front), last, place);
      InsertedAt(SortAll(front), last, place + 1);
    }
  }

  lemma {:induction false} EntryAt(entries: seq<Timed>, place: nat) returns (i: nat)
    requires place < |entries|
    ensures i < |entries| && After(entries, i) == |entries| - 1 - place
  {
    var front, last := entries[..|entries| - 1], entries[|entries| - 1];
    var p := InsertPosition(SortAll(front), last.time);
    SortAllIsSorted(front);
    if place == p {
      CountIsPosition(front, last.time);
      i := |entries| - 1;
    } else {
      i := EntryAt(front, if place < p then place else place - 1);
      SortedAt(front, i);
    }
  }

  /** A stored snapshot is in the buffer exactly as long as fewer than `max`
      entries sort after it, in whatever order they came. */
  lemma SurvivesExactly(entries: seq<Timed>, max: nat, t: Timed)
    ensures t in StoreAll(entries, max) <==>
            exists i :: 0 <= i < |entries| && entries[i] == t && After(entries, i) < max
  {
    if t in StoreAll(entries, max) {
      var i := EntryBehind(entries, max, t);
    }
    if i :| 0 <= i < |entries| && entries[i] == t && After(entries, i) < max {
      EntrySurvives(entries, max, i);
    }
  }

  lemma EntryBehind(entries: seq<Timed>, max: nat, t: Timed) returns (i: nat)
    requires t in StoreAll(entries, max)
    ensures i < |entries| && entries[i] == t && After(entries, i) < max
  {
    KeepsNewest(entries, max);
    var kept := KeepLast(SortAll(entries), max);
    var k :| 0 <= k < |kept| && kept[k] == t;
    KeptAt(SortAll(entries), max, k);
    i := EntryAt(entries, |entries| - |kept| + k);
    SortedAt(entries, i);
  }

  lemma EntrySurvives(entries: seq<Timed>, max: nat, i: nat)
    requires i < |entries| && After(entries, i) < max
    ensures entries[i] in StoreAll(entries, max)
  {
    KeepsNewest(entries, max);
    SortedAt(entries, i);
    var kept := KeepLast(SortAll(entries), max);
    KeptAt(SortAll(entries), max, |kept| - 1 - After(entries, i));
  }

  lemma {:induction false} FindByTickFinds(buffer: seq<Timed>, tick: u32)
    ensures FindByTick(buffer, tick).Some? <==> exists t :: t in buffer && t.snapshot.tick == tick
    ensures FindByTick(buffer, tick).Some? ==>
              exists t :: t in buffer && t.snapshot.tick == tick && FindByTick(buffer, tick) == Some(t.snapshot)
  {
    if buffer == [] {
    } else {
      var front, last := buffer[..|buffer| - 1], buffer[|buffer| - 1];
      assert buffer == front + [last];
      FindByTickFinds(front, tick);
    }
  }

  datatype Pushed = Pushed(snapshot: WorldSnapshot, localTime: real, listing: seq<EntityState>)

  /** An engine after a run of `push_snapshot`. */
  function PushAll(config: Config, pushes: seq<Pushed>): Engine {
    if pushes == [] then FreshEngine(config)
    else
      var p := pushes[|pushes| - 1];
      Push(PushAll(config, pushes[..|pushes| - 1]), p.snapshot, p.localTime, p.listing)
  }

  /** What the run stored: the snapshots that expanded. */
  function Entries(config: Config, pushes: seq<Pushed>): seq<Timed> {
    if pushes == [] then []
    else
      var front, p := pushes[..|pushes| - 1], pushes[|pushes| - 1];
      if Expanded(PushAll(config, front), p.snapshot) == None then Entries(config, front)
      else Entries(config, front) + [Timed(FullSnapshot(p.snapshot, p.listing), p.snapshot.serverTimeMs as real)]
  }

  lemma {:induction false} PushesStore(config: Config, pushes: seq<Pushed>)
    ensures PushAll(config, pushes).config == config
    ensures PushAll(config, pushes).snapshots == StoreAll(Entries(config, pushes), config.maxBufferSnapshots)
  {
    if pushes == [] {
    } else {
      var front, p := pushes[..|pushes| - 1], pushes[|pushes| - 1];
      PushesStore(config, front);
      if Expanded(PushAll(config, front), p.snapshot) != None {
        var t := Timed(FullSnapshot(p.snapshot, p.listing), p.snapshot.serverTimeMs as real);
        assert (Entries(config, front) + [t])[..|Entries(config, front)|] == Entries(config, front);
      }
    }
  }

  /** So over every run of pushes a delta against a stored baseline expands until
      `max_buffer_snapshots` entries sort after it. */
  lemma BaselineSurvives(config: Config, pushes: seq<Pushed>, i: nat, s: WorldSnapshot)
    requires i < |Entries(config, pushes)| && After(Entries(config, pushes), i) < config.maxBufferSnapshots
    requires s.isDelta && s.baselineTick == Entries(config, pushes)[i].snapshot.tick
    ensures Expanded(PushAll(config, pushes), s).Some?
  {
    PushesStore(config, pushes);
    EntrySurvives(Entries(config, pushes), config.maxBufferSnapshots, i);
    FindByTickFinds(PushAll(config, pushes).snapshots, s.baselineTick);
  }

  // -------------------------------------------------------------------- class

  /** Position, position, weight. */
  datatype Bracket = Bracket(from: nat, to: nat, t: real)

  function ClampUnit(t: real): real { if t < 0.0 then 0.0 else if t > 1.0 then 1.0 else t }

  class InterpolationEngine {
    const config: Config
    var snapshots: seq<Timed>
    var serverTimeOffset: real
    var renderTime: real
    var knownEntities: View
    var ready: bool
    var latestServerTick: u32
    var lastSnapshotTime: real
    var knowledgeTick: u32

    ghost predicate Valid()
      reads this
    {
      Sorted(snapshots) && KeyedById(knownEntities)
    }

    ghost function Value(): Engine
      reads this
    {
      Engine(config, snapshots, serverTimeOffset, renderTime, knownEntities, ready, latestServerTick,
             lastSnapshotTime, knowledgeTick)
    }

    constructor (config: Config)
      ensures Valid() && Value() == FreshEngine(config)
      ensures this.config == config && snapshots == [] && knownEntities == map[] && !ready
      ensures latestServerTick == knowledgeTick == 0 && serverTimeOffset == renderTime == lastSnapshotTime == 0.0
    {
      this.config := config;
      snapshots, serverTimeOffset, renderTime := [], 0.0, 0.0;
      knownEntities, ready, latestServerTick, lastSnapshotTime, knowledgeTick := map[], false, 0, 0.0, 0;
    }

    method PushSnapshot(snapshot: WorldSnapshot, localTime: real) returns (ghost listing: seq<EntityState>)
      requires Valid()
      modifies this
      ensures Valid()
      ensures Value() == Push(old(Value()), snapshot, localTime, listing)
      ensures snapshot.isDelta && Expanded(old(Value()), snapshot).Some? ==> Lists(listing, knownEntities)
    {
      SyncClock(snapshot, localTime);
      var full := ExpandSnapshot(snapshot);
      listing := [];
      if full.Some? {
        listing := full.value.entities;
        KeepSnapshot(Timed(full.value, snapshot.serverTimeMs as real));
      }
    }

    method KeepSnapshot(timed: Timed)
      requires Sorted(snapshots)
      modifies `snapshots, `ready
      ensures Sorted(snapshots) && Value() == Keep(old(Value()), timed)
      ensures ready <==> old(ready) || |snapshots| >= config.minBufferSnapshots
    {
      StoreSnapshot(timed);
      if !ready && |snapshots| >= config.minBufferSnapshots {
        ready := true;
      }
    }

    method SyncClock(snapshot: WorldSnapshot, localTime: real)
      modifies `latestServerTick, `lastSnapshotTime, `serverTimeOffset, `renderTime
      ensures Value() == UpdateClock(old(Value()), snapshot, localTime)
      ensures latestServerTick >= old(latestServerTick) && latestServerTick >= snapshot.tick
      ensures latestServerTick == old(latestServerTick) || latestServerTick == snapshot.tick
      ensures lastSnapshotTime == localTime
      ensures var offset := snapshot.serverTimeMs as real - localTime;
              if snapshots == [] then
                serverTimeOffset == offset && renderTime == snapshot.serverTimeMs as real - config.targetDelayMs
              else
                renderTime == old(renderTime) && serverTimeOffset - offset
                == (old(serverTimeOffset) - offset) * (1.0 - config.timeCorrectionRate)
    {
      if snapshots != [] { ClockApproaches(Value(), snapshot, localTime); }
      var serverTime := snapshot.serverTimeMs as real;
      if snapshot.tick > latestServerTick {
        latestServerTick := snapshot.tick;
      }
      lastSnapshotTime := localTime;
      var newOffset := serverTime - localTime;
      if snapshots == [] {
        serverTimeOffset := newOffset;
        renderTime := serverTime - config.targetDelayMs;
      } else {
        serverTimeOffset := serverTimeOffset + (newOffset - serverTimeOffset) * config.timeCorrectionRate;
      }
    }

    method StoreSnapshot(timed: Timed)
      requires Sorted(snapshots)
      modifies `snapshots
      ensures Sorted(snapshots) && snapshots == Store(old(snapshots), timed, config.maxBufferSnapshots)
    {
      StoreKeepsSorted(snapshots, timed, config.maxBufferSnapshots);
      var position := 0;
      while position < |snapshots| && snapshots[position].time <= timed.time
        invariant position <= |snapshots|
        invariant position + InsertPosition(snapshots[position..], timed.time) == InsertPosition(snapshots, timed.time)
      {
        assert snapshots[position..][1..] == snapshots[position + 1..];
        position := position + 1;
      }
      snapshots := snapshots[..position] + [timed] + snapshots[position..];
      ghost var inserted := snapshots;
      while |snapshots| > config.maxBufferSnapshots
        invariant KeepLast(snapshots, config.maxBufferSnapshots) == KeepLast(inserted, config.maxBufferSnapshots)
        decreases |snapshots|
      {
        snapshots := snapshots[1..];
      }
    }

    method GetSnapshotByTick(tick: u32) returns (s: Option<WorldSnapshot>)
      ensures s == FindByTick(snapshots, tick)
      ensures s == None ==> forall k :: 0 <= k < |snapshots| ==> snapshots[k].snapshot.tick != tick
      ensures s.Some? ==>
                exists i :: 0 <= i < |snapshots| && s.value == snapshots[i].snapshot
                            && snapshots[i].snapshot.tick == tick
                            && forall k :: i < k < |snapshots| ==> snapshots[k].snapshot.tick != tick
    {
      var i := |snapshots|;
      assert snapshots[..i] == snapshots;
      while i > 0
        invariant i <= |snapshots| && FindByTick(snapshots[..i], tick) == FindByTick(snapshots, tick)
        invariant forall k :: i <= k < |snapshots| ==> snapshots[k].snapshot.tick != tick
      {
        assert snapshots[..i][..i - 1] == snapshots[..i - 1];
        i := i - 1;
        if snapshots[i].snapshot.tick == tick {
          return Some(snapshots[i].snapshot);
        }
      }
      return None;
    }

    method ExpandSnapshot(snapshot: WorldSnapshot) returns (full: Option<WorldSnapshot>)
      requires KeyedById(knownEntities)
      modifies `knownEntities, `knowledgeTick
      ensures KeyedById(knownEntities)
      ensures match Expanded(old(Value()), snapshot)
              case None => full == None && knownEntities == old(knownEntities) && knowledgeTick == old(knowledgeTick)
              case Some(view) =>
                && knownEntities == view && knowledgeTick == snapshot.tick
                && full.Some? && full.value == FullSnapshot(snapshot, full.value.entities)
                && (snapshot.isDelta ==> Lists(full.value.entities, knownEntities))
      ensures full.Some? ==>
                && full.value.tick == snapshot.tick && full.value.serverTimeMs == snapshot.serverTimeMs
                && full.value.lastCommandAck == snapshot.lastCommandAck && !full.value.isDelta
                && (if snapshot.isDelta then full.value.baselineTick == 0 && full.value.removedEntityIds == []
                    else full.value == snapshot)
    {
      if !snapshot.isDelta {
        knownEntities := map[];
        InsertKnown(snapshot.entities);
        RemoveKnown(snapshot.removedEntityIds);
        knowledgeTick := snapshot.tick;
        return Some(snapshot);
      }
      if snapshot.baselineTick != knowledgeTick {
        var baseline := GetSnapshotByTick(snapshot.baselineTick);
        if baseline.None? {
          return None;
        }
        knownEntities := map[];
        InsertKnown(baseline.value.entities);
        knowledgeTick := snapshot.baselineTick;
      }
      InsertKnown(snapshot.entities);
      RemoveKnown(snapshot.removedEntityIds);
      var listing := ListStates(knownEntities);
      knowledgeTick := snapshot.tick;
      return Some(WorldSnapshot(snapshot.tick, snapshot.serverTimeMs, snapshot.lastCommandAck, 0, false, listing, []));
    }

    method InsertKnown(es: seq<EntityState>)
      requires KeyedById(knownEntities)
      modifies `knownEntities
      ensures KeyedById(knownEntities) && knownEntities == InsertAll(old(knownEntities), es)
    {
      ghost var before := knownEntities;
      for i := 0 to |es|
        invariant KeyedById(knownEntities) && knownEntities == InsertAll(before, es[..i])
      {
        assert es[..i + 1][..i] == es[..i];
        knownEntities := knownEntities[es[i].entityId := es[i]];
      }
      assert es[..|es|] == es;
    }

    method RemoveKnown(ids: seq<EntityId>)
      requires KeyedById(knownEntities)
      modifies `knownEntities
      ensures KeyedById(knownEntities) && knownEntities == RemoveAll(old(knownEntities), ids)
    {
      ghost var before := knownEntities;
      for i := 0 to |ids|
        invariant KeyedById(knownEntities) && knownEntities == RemoveAll(before, ids[..i])
      {
        assert ids[..i + 1] == ids[..i] + [ids[i]];
        knownEntities := knownEntities - {ids[i]};
      }
      assert ids[..|ids|] == ids;
    }

    method CleanupOldSnapshots()
      requires Valid()
      modifies `snapshots
      ensures Valid() && Value() == Cleanup(old(Value()))
      ensures snapshots == Retain(old(snapshots), renderTime - config.snapshotRetentionMs)
    {

      RetainKeepsSorted(snapshots, renderTime - config.snapshotRetentionMs);
      snapshots := NewerThan(renderTime - config.snapshotRetentionMs);
    }

    method NewerThan(cutoff: real) returns (kept: seq<Timed>)
      ensures kept == Retain(snapshots, cutoff)
    {
      kept := [];
      for i := 0 to |snapshots|
        invariant kept == Retain(snapshots[..i], cutoff)
      {
        assert snapshots[..i + 1][..i] == snapshots[..i];
        if snapshots[i].time > cutoff {
          kept := kept + [snapshots[i]];
        }
      }
      assert snapshots[..|snapshots|] == snapshots;
    }

    /** Within the buffer's time span the result is an adjacent pair around the
        render time whose weighted time is the render time; before it, the first
        snapshot alone; after it, the last pair with a weight that extrapolates to the
        render time but not beyond one and a half spans. */
    method FindInterpolationIndices() returns (r: Option<Bracket>)
      requires Valid()
      ensures |snapshots| < 2 <==> r == None
      ensures r.Some? ==>
        var b, n := r.value, |snapshots|;
        && b.from < n && b.to < n
        && (renderTime < snapshots[0].time ==> b == Bracket(0, 0, 0.0))
        && (snapshots[0].time <= renderTime <= snapshots[n - 1].time ==>
              && b.to == b.from + 1 && 0.0 <= b.t <= 1.0
              && snapshots[b.from].time <= renderTime <= snapshots[b.to].time
              && (forall k :: 0 < k <= b.from ==> snapshots[k].time < renderTime)
              && (snapshots[b.from].time == snapshots[b.to].time ==> b.t == 0.0)
              && snapshots[b.from].time + b.t * (snapshots[b.to].time - snapshots[b.from].time) == renderTime)
        && (renderTime > snapshots[n - 1].time ==>
              var prev, duration := snapshots[n - 2].time, snapshots[n - 1].time - snapshots[n - 2].time;
              && b.from == n - 2 && b.to == n - 1
              && (duration == 0.0 ==> b.t == 1.0)
              && (duration > 0.0 && renderTime - prev < 1.5 * duration ==>
                    1.0 <= b.t < 1.5 && prev + b.t * duration == renderTime)
              && (duration > 0.0 && renderTime - prev >= 1.5 * duration ==> b.t == 1.5))
    {
      if |snapshots| < 2 {
        return None;
      }
      var i := 0;
      while i < |snapshots| - 1
        invariant 0 <= i <= |snapshots| - 1
        invariant snapshots[0].time <= renderTime ==>
                    snapshots[i].time <= renderTime && (forall k :: 0 < k <= i ==> snapshots[k].time < renderTime)
      {
        var from, to := snapshots[i], snapshots[i + 1];
        if from.time <= renderTime && to.time >= renderTime {
          return Some(Bracket(i, i + 1, WeightWithin(renderTime - from.time, to.time - from.time)));
        }
        i := i + 1;
      }
      if renderTime < snapshots[0].time {
        return Some(Bracket(0, 0, 0.0));
      }
      var n := |snapshots|;
      var prev, last := snapshots[n - 2], snapshots[n - 1];
      return Some(Bracket(n - 2, n - 1, WeightBeyond(renderTime - prev.time, last.time - prev.time)));
    }

    method ResetEngine()
      modifies this
      ensures Valid() && Value() == Reset(old(Value()))
      ensures snapshots == [] && knownEntities == map[] && !ready && latestServerTick == 0
      ensures serverTimeOffset == renderTime == lastSnapshotTime == 0.0 && knowledgeTick == old(knowledgeTick)
    {
      snapshots, serverTimeOffset, renderTime := [], 0.0, 0.0;
      knownEntities, ready, latestServerTick, lastSnapshotTime := map[], false, 0, 0.0;
    }
  }

  /** The weight between two snapshots `whole` apart, `part` after the first. */
  function WeightWithin(part: real, whole: real): (t: real)
    requires 0.0 <= part <= whole
    ensures 0.0 <= t <= 1.0 && t * whole == part
    ensures whole == 0.0 ==> t == 0.0
  {
    if whole > 0.0 then
      CompareFraction(part, whole, 0.0);
      CompareFraction(part, whole, 1.0);
      ClampUnit(part / whole)
    else 0.0
  }

  /** And past the second one: extrapolated, but by no more than half a span. */
  function WeightBeyond(part: real, whole: real): (t: real)
    requires 0.0 <= whole <= part
    ensures whole == 0.0 ==> t == 1.0
    ensures whole > 0.0 && part < 1.5 * whole ==> 1.0 <= t < 1.5 && t * whole == part
    ensures whole > 0.0 && part >= 1.5 * whole ==> t == 1.5
  {
    if whole > 0.0 then
      CompareFraction(part, whole, 1.0);
      CompareFraction(part, whole, 1.5);
      var t := part / whole;
      var clamped := if t < 0.0 then 0.0 else if t > 2.0 then 2.0 else t;
      if clamped < 1.5 then clamped else 1.5
    else 1.0
  }

  lemma CompareFraction(part: real, whole: real, k: real)
    requires whole > 0.0
    ensures (part / whole) * whole == part
    ensures part / whole < k <==> part < k * whole
    ensures part / whole == k <==> part == k * whole
  {
    var t := part / whole;
    assert t * whole == part;
    Sign(t - k, whole);
    assert (t - k) * whole == part - k * whole;
  }

  lemma Sign(x: real, y: real)
    requires y > 0.0
    ensures (x > 0.0 <==> x * y > 0.0) && (x < 0.0 <==> x * y < 0.0)
  {
    if x < 0.0 { assert (-x) * y > 0.0; }
  }
}
