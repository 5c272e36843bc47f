/** The server's world, its snapshots, and the delta between two of them. */
module World {
  import opened Serial
  import opened Protocol
  import opened Entities

  // -------------------------------------------------------- states and lists

  type View = map<EntityId, EntityState>

  /** The comparison the encoder uses: everything but the animation frame. */
  predicate StatesEqual(a: EntityState, b: EntityState) {
    && a.entityId == b.entityId && a.entityType == b.entityType
    && a.position == b.position && a.velocity == b.velocity && a.orientation == b.orientation
    && a.animationState == b.animationState && a.flags == b.flags
  }

  /** Equal up to the animation frame. */
  ghost predicate Similar(a: View, b: View) {
    a.Keys == b.Keys && forall id :: id in a ==> StatesEqual(a[id], b[id])
  }

  ghost predicate KeyedById(v: View) {
    forall id :: id in v ==> v[id].entityId == id
  }

  /** `es` lists the view, each entity once, in any order. */
  ghost predicate Lists(es: seq<EntityState>, v: View) {
    && (forall i, j :: 0 <= i < j < |es| ==> es[i].entityId != es[j].entityId)
    && (forall e :: e in es ==> e.entityId in v && v[e.entityId] == e)
    && (forall id :: id in v ==> v[id] in es)
  }

  function InsertAll(v: View, es: seq<EntityState>): View {
    if es == [] then v
    else
      var last := es[|es| - 1];
      InsertAll(v, es[..|es| - 1])[last.entityId := last]
  }

  function RemoveAll(v: View, ids: seq<EntityId>): View {
    v - (set id | id in ids)
  }

  function ViewOf(es: seq<EntityState>): View { InsertAll(map[], es) }

  lemma {:induction false} InsertAllEffect(v: View, es: seq<EntityState>, w: View)
    requires forall i, j :: 0 <= i < j < |es| ==> es[i].entityId != es[j].entityId
    requires forall e :: e in es ==> e.entityId in w && w[e.entityId] == e
    ensures forall id :: id in InsertAll(v, es) <==> id in v || (id in w && w[id] in es && w[id].entityId == id)
    ensures forall id :: id in InsertAll(v, es) ==>
              InsertAll(v, es)[id] == if id in w && w[id] in es && w[id].entityId == id then w[id] else v[id]
  {
    if es == [] {
    } else {
      var front, last := es[..|es| - 1], es[|es| - 1];
      assert es == front + [last];
      InsertAllEffect(v, front, w);
      assert w[last.entityId] == last;
    }
  }

  /** A listing determines the view it lists. */
  lemma ListsIsView(es: seq<EntityState>, v: View)
    requires Lists(es, v) && KeyedById(v)
    ensures ViewOf(es) == v
  {
    InsertAllEffect(map[], es, v);
  }

  /** What the baseline does not already say about the current view. */
  function Changed(current: View, baseline: View): View {
    map id | id in current && !(id in baseline && StatesEqual(current[id], baseline[id])) :: current[id]
  }

  /** The baseline's ids, in its order, that are no longer live. */
  function Gone(baseline: seq<EntityState>, current: View): seq<EntityId> {
    if baseline == [] then []
    else Gone(baseline[..|baseline| - 1], current) +
         (if baseline[|baseline| - 1].entityId in current then [] else [baseline[|baseline| - 1].entityId])
  }

  /** `entities` and `removed` are the delta from `baseline` to `current`. */
  ghost predicate IsDelta(entities: seq<EntityState>, removed: seq<EntityId>, current: View, baseline: View) {
    Lists(entities, Changed(current, baseline)) && (forall id :: id in removed <==> id in baseline && id !in current)
  }

  function ApplyDelta(known: View, entities: seq<EntityState>, removed: seq<EntityId>): View {
    RemoveAll(InsertAll(known, entities), removed)
  }

  lemma GoneExactly(baseline: seq<EntityState>, v: View, current: View)
    requires Lists(baseline, v) && KeyedById(v)
    ensures forall id :: id in Gone(baseline, current) <==> id in v && id !in current
  {
    GoneMembers(baseline, current);
    forall id ensures id in Gone(baseline, current) <==> id in v && id !in current {
      if id in v && id !in current { assert v[id] in baseline; }
    }
  }

  lemma {:induction false} GoneMembers(baseline: seq<EntityState>, current: View)
    ensures forall id :: id in Gone(baseline, current) <==>
              id !in current && exists e :: e in baseline && e.entityId == id
  {
    if baseline == [] {
    } else {
      var front, last := baseline[..|baseline| - 1], baseline[|baseline| - 1];
      assert baseline == front + [last];
      GoneMembers(front, current);
      forall id
        ensures id in Gone(baseline, current) <==> id !in current && exists e :: e in baseline && e.entityId == id
      {
        if e :| e in baseline && e.entityId == id { assert e in front || e == last; }
      }
    }
  }

  /** Round trip. Applied to anything equal to the baseline up to animation
      frames, the delta gives the current view up to animation frames. */
  lemma DeltaRoundTrip(known: View, entities: seq<EntityState>, removed: seq<EntityId>, current: View, baseline: View)
    requires Similar(known, baseline) && KeyedById(current)
    requires IsDelta(entities, removed, current, baseline)
    ensures Similar(ApplyDelta(known, entities, removed), current)
    ensures KeyedById(known) ==> KeyedById(ApplyDelta(known, entities, removed))
  {
    var changed := Changed(current, baseline);
    InsertAllEffect(known, entities, changed);
    var result := ApplyDelta(known, entities, removed);
    forall id ensures id in result <==> id in current {
      if id in changed { assert changed[id] in entities; }
    }
    forall id | id in result ensures StatesEqual(result[id], current[id]) {
      if id in changed { assert changed[id] in entities; }
    }
  }

  /** What the delta does not list has the current frame already. */
  predicate SameFrames(known: View, current: View, baseline: View) {
    forall id :: id in current && id !in Changed(current, baseline) ==>
      id in known && known[id].animationFrame == current[id].animationFrame
  }

  /** And exactly when frames agree as well: the delta gives the current world itself
      if and only if what it does not list was known with its current frame. */
  lemma DeltaIsExactWhen(known: View, entities: seq<EntityState>, removed: seq<EntityId>, current: View, baseline: View)
    requires Similar(known, baseline) && KeyedById(current) && IsDelta(entities, removed, current, baseline)
    ensures ApplyDelta(known, entities, removed) == current <==> SameFrames(known, current, baseline)
  {
    var changed, result := Changed(current, baseline), ApplyDelta(known, entities, removed);
    DeltaRoundTrip(known, entities, removed, current, baseline);
    InsertAllEffect(known, entities, changed);
    forall id | id in current
      ensures id in result && result[id] == if id in changed then current[id] else known[id]
      ensures id !in changed ==> id in known && StatesEqual(current[id], known[id])
    {
      if id in changed { assert changed[id] in entities; } else { assert StatesEqual(current[id], baseline[id]); }
    }
    if SameFrames(known, current, baseline) {
      forall id | id in current ensures result[id] == current[id] {}
    }
  }

  /** Minimality. Anything smaller that still does the job has every entity and
      every removal of the delta. */
  lemma DeltaIsMinimal(known: View, entities: seq<EntityState>, removed: seq<EntityId>, current: View,
                       fewer: seq<EntityState>, less: seq<EntityId>)
    requires KeyedById(current) && IsDelta(entities, removed, current, known)
    requires forall e :: e in fewer ==> e in entities
    requires forall i, j :: 0 <= i < j < |fewer| ==> fewer[i].entityId != fewer[j].entityId
    requires Similar(ApplyDelta(known, fewer, less), current)
    ensures forall e :: e in entities ==> e in fewer
    ensures forall id :: id in removed ==> id in less
  {
    var changed := Changed(current, known);
    InsertAllEffect(known, fewer, changed);
    var result := ApplyDelta(known, fewer, less);
    forall e | e in entities ensures e in fewer {
      assert changed[e.entityId] == e && e.entityId in result;
    }
  }

  /** One encoded step of a chain of worlds. */
  datatype Delta = Delta(entities: seq<EntityState>, removed: seq<EntityId>)

  function ApplyChain(known: View, deltas: seq<Delta>): View {
    if deltas == [] then known
    else
      var last := deltas[|deltas| - 1];
      ApplyDelta(ApplyChain(known, deltas[..|deltas| - 1]), last.entities, last.removed)
  }

  ghost predicate Encodes(worlds: seq<View>, deltas: seq<Delta>, i: nat)
    requires i < |deltas| < |worlds|
  {
    KeyedById(worlds[i + 1]) && IsDelta(deltas[i].entities, deltas[i].removed, worlds[i + 1], worlds[i])
  }

  /** Deltas between successive worlds compose. */
  lemma {:induction false} ChainComposes(known: View, worlds: seq<View>, deltas: seq<Delta>)
    requires |worlds| == |deltas| + 1 && Similar(known, worlds[0])
    requires forall i :: 0 <= i < |deltas| ==> Encodes(worlds, deltas, i)
    ensures Similar(ApplyChain(known, deltas), worlds[|deltas|])
  {
    if deltas == [] {
    } else {
      var n := |deltas| - 1;
      var front, earlier := deltas[..n], worlds[..n + 1];
      forall i | 0 <= i < n ensures Encodes(earlier, front, i) { assert Encodes(worlds, deltas, i); }
      ChainComposes(known, earlier, front);
      assert Encodes(worlds, deltas, n);
      DeltaRoundTrip(ApplyChain(known, front), deltas[n].entities, deltas[n].removed, worlds[n + 1], worlds[n]);
    }
  }

  // -------------------------------------------------------------------- world

  datatype WorldState = WorldState(
    tick: u32,
    entities: map<EntityId, Entity>,
    nextEntityId: EntityId,
    removed: seq<EntityId>)

  ghost predicate WellFormed(w: WorldState) {
    && (forall id :: id in w.entities ==> w.entities[id].id == id)
    && (forall id :: id in w.entities ==> id < w.nextEntityId)
  }

  function FreshWorld(): WorldState { WorldState(0, map[], 1, []) }

  function NetworkView(w: WorldState): View {
    map id | id in w.entities :: ToNetworkState(w.entities[id])
  }

  function Settle(e: Entity): Entity { e.(dirty := false) }

  function Advance(w: WorldState): WorldState {
    WorldState(WrapInc32(w.tick), map id | id in w.entities :: Settle(w.entities[id]), w.nextEntityId, [])
  }

  function SpawnEntity(w: WorldState, entityType: EntityType, position: Vec3): WorldState {
    w.(entities := w.entities[w.nextEntityId := NewEntity(w.nextEntityId, entityType, position)],
       nextEntityId := w.nextEntityId + 1)
  }

  function DespawnEntity(w: WorldState, id: EntityId): WorldState {
    if id in w.entities then w.(entities := w.entities - {id}, removed := w.removed + [id]) else w
  }

  /** Clearing the dirty flags changes nothing a client sees. */
  lemma AdvanceKeepsView(w: WorldState)
    ensures NetworkView(Advance(w)) == NetworkView(w)
  {
    assert NetworkView(Advance(w)).Keys == NetworkView(w).Keys;
  }

  /** What a client reads off any view of the world is what its entities are. */
  lemma ViewReads(w: WorldState)
    requires WellFormed(w)
    ensures forall id :: id in NetworkView(w) <==> id in w.entities
    ensures forall id :: id in w.entities ==> Reads(NetworkView(w)[id], w.entities[id])
  {
    forall id | id in w.entities ensures Reads(NetworkView(w)[id], w.entities[id]) { EncodingReads(w.entities[id]); }
  }

  lemma AdvanceKeepsWellFormed(w: WorldState)
    requires WellFormed(w)
    ensures WellFormed(Advance(w)) && KeyedById(NetworkView(w))
  {
  }

  /** A spawned id is new: ids are handed out in increasing order. */
  lemma SpawnIsFresh(w: WorldState, entityType: EntityType, position: Vec3)
    requires WellFormed(w)
    ensures WellFormed(SpawnEntity(w, entityType, position))
    ensures w.nextEntityId !in w.entities
    ensures NetworkView(SpawnEntity(w, entityType, position)).Keys == NetworkView(w).Keys + {w.nextEntityId}
  {
  }

  class GameWorld {
    var tick: u32
    var entities: map<EntityId, Entity>
    var nextEntityId: EntityId
    var removedEntities: seq<EntityId>

    ghost function Value(): WorldState
      reads this
    {
      WorldState(tick, entities, nextEntityId, removedEntities)
    }

    constructor ()
      ensures Value() == FreshWorld() && WellFormed(Value())
      ensures tick == 0 && entities == map[] && nextEntityId == 1 && removedEntities == []
    {
      tick, entities, nextEntityId, removedEntities := 0, map[], 1, [];
    }

    method SetTick(t: u32)
      modifies `tick
      ensures tick == t
    {
      tick := t;
    }

    method AdvanceTick()
      modifies this
      ensures Value() == Advance(old(Value()))
      ensures tick == (old(tick) + 1) % POW32 && removedEntities == [] && entities.Keys == old(entities).Keys
      ensures forall id :: id in entities ==> entities[id] == old(entities)[id].(dirty := false)
    {
      tick := WrapInc32(tick);
      removedEntities := [];
      entities := map id | id in entities :: entities[id].(dirty := false);
    }

    method AllocateId() returns (id: EntityId)
      modifies `nextEntityId
      ensures id == old(nextEntityId) && nextEntityId == id + 1
    {
      id := nextEntityId;
      nextEntityId := nextEntityId + 1;
    }

    method Spawn(entityType: EntityType) returns (id: EntityId)
      modifies this
      ensures id == old(nextEntityId) && Value() == SpawnEntity(old(Value()), entityType, ORIGIN)
      ensures entities == old(entities)[id :=
                Entity(id, entityType, ORIGIN, ORIGIN, Quat(0.0, 0.0, 0.0, 1.0), 0, 0.0, 0, true)]
      ensures nextEntityId == id + 1
    {
      id := AllocateId();
      entities := entities[id := NewEntity(id, entityType, ORIGIN)];
    }

    method SpawnPlayer(position: Vec3) returns (id: EntityId)
      modifies this
      ensures id == old(nextEntityId) && Value() == SpawnEntity(old(Value()), PLAYER, position)
      ensures entities == old(entities)[id :=
                Entity(id, PLAYER, position, ORIGIN, Quat(0.0, 0.0, 0.0, 1.0), 0, 0.0, 0, true)]
      ensures nextEntityId == id + 1
    {
      id := AllocateId();
      entities := entities[id := NewEntity(id, PLAYER, position)];
    }

    method SpawnWithId(id: EntityId, entityType: EntityType)
      requires WellFormed(Value())
      modifies this
      ensures WellFormed(Value())
      ensures entities == old(entities)[id := NewEntity(id, entityType, ORIGIN)]
      ensures nextEntityId == if id >= old(nextEntityId) then id + 1 else old(nextEntityId)
      ensures tick == old(tick) && removedEntities == old(removedEntities)
    {
      entities := entities[id := NewEntity(id, entityType, ORIGIN)];
      if id >= nextEntityId {
        nextEntityId := id + 1;
      }
    }

    method Despawn(id: EntityId) returns (entity: Option<Entity>)
      modifies this
      ensures Value() == DespawnEntity(old(Value()), id)
      ensures entities == old(entities) - {id} && tick == old(tick) && nextEntityId == old(nextEntityId)
      ensures removedEntities == old(removedEntities) + (if id in old(entities) then [id] else [])
      ensures entity == if id in old(entities) then Some(old(entities)[id]) else None
    {
      if id in entities {
        entity := Some(entities[id]);
        entities := entities - {id};
        removedEntities := removedEntities + [id];
      } else {
        entity := None;
      }
    }

    method TakeSnapshot(lastCommandAck: u32, serverTimeMs: nat) returns (s: WorldSnapshot)
      requires WellFormed(Value())
      ensures Lists(s.entities, NetworkView(Value())) && s.removedEntityIds == removedEntities
      ensures s.tick == tick && s.serverTimeMs == serverTimeMs && s.lastCommandAck == lastCommandAck
      ensures s.baselineTick == 0 && !s.isDelta
      ensures forall e :: e in s.entities ==> e.entityId in entities && Reads(e, entities[e.entityId])
      ensures forall id :: id in entities ==> exists e :: e in s.entities && e.entityId == id
    {
      ViewReads(Value());
      var states := ListStates(map id | id in entities :: ToNetworkState(entities[id]));
      s := WorldSnapshot(tick, serverTimeMs, lastCommandAck, 0, false, states, removedEntities);
    }

    /** The delta against a baseline that lists some earlier view. */
    method DeltaFromBaseline(baseline: WorldSnapshot, lastCommandAck: u32, serverTimeMs: nat, ghost view: View)
      returns (s: WorldSnapshot)
      requires WellFormed(Value()) && Lists(baseline.entities, view) && KeyedById(view)
      ensures IsDelta(s.entities, s.removedEntityIds, NetworkView(Value()), view)
      ensures s.removedEntityIds == Gone(baseline.entities, NetworkView(Value()))
      ensures s.tick == tick && s.serverTimeMs == serverTimeMs && s.lastCommandAck == lastCommandAck
      ensures s.baselineTick == baseline.tick && s.isDelta
      ensures forall e :: e in s.entities ==> e.entityId in entities && Reads(e, entities[e.entityId])
    {
      ViewReads(Value());
      ghost var current := NetworkView(Value());
      var baselineEntities := MapOf(baseline.entities);
      ListsIsView(baseline.entities, view);
      var changed := map id | id in entities &&
        !(id in baselineEntities && StatesEqual(ToNetworkState(entities[id]), baselineEntities[id]))
        :: ToNetworkState(entities[id]);
      assert changed == Changed(current, view);
      var states := ListStates(changed);
      var gone := ListGone(baseline.entities);
      GoneExactly(baseline.entities, view, current);
      s := WorldSnapshot(tick, serverTimeMs, lastCommandAck, baseline.tick, true, states, gone);
    }

    method ListGone(baseline: seq<EntityState>) returns (gone: seq<EntityId>)
      ensures gone == Gone(baseline, NetworkView(Value()))
    {
      gone := [];
      for i := 0 to |baseline|
        invariant gone == Gone(baseline[..i], NetworkView(Value()))
      {
        assert baseline[..i + 1][..i] == baseline[..i];
        if baseline[i].entityId !in entities {
          gone := gone + [baseline[i].entityId];
        }
      }
      assert baseline[..|baseline|] == baseline;
    }
  }

  method MapOf(es: seq<EntityState>) returns (v: View)
    ensures v == ViewOf(es)
  {
    v := map[];
    for i := 0 to |es|
      invariant v == ViewOf(es[..i])
    {
      assert es[..i + 1][..i] == es[..i];
      v := v[es[i].entityId := es[i]];
    }
    assert es[..|es|] == es;
  }

  /** Collects a hash map's values, in whatever order it yields them. */
  method ListStates(v: View) returns (es: seq<EntityState>)
    requires KeyedById(v)
    ensures Lists(es, v)
  {
    es := [];
    var left := v.Keys;
    while left != {}
      invariant left <= v.Keys
      invariant forall i, j :: 0 <= i < j < |es| ==> es[i].entityId != es[j].entityId
      invariant forall e :: e in es ==> e.entityId in v && e.entityId !in left && v[e.entityId] == e
      invariant forall id :: id in v && id !in left ==> v[id] in es
      decreases left
    {
      var id :| id in left;
      assert forall e :: e in es ==> e.entityId != id;
      es := es + [v[id]];
      left := left - {id};
    }
  }
}
