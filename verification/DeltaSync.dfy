/** Snapshot synchronisation end to end: whatever the network does, the client
    never holds a world that differs from the server's, animation frames aside. */
module DeltaSync {
  import opened Serial
  import opened Protocol
  import opened World
  import opened SnapshotBuffer
  import opened SnapshotServer
  import opened Interpolation

  /** Server, network and one client. `worlds` is the history of what the server
      showed at each tick; `sent` is everything ever put on the wire to this
      client, from which the network delivers anything, in any order, any number
      of times, or never; `blank` says that the client was reset and has expanded
      nothing since. */
  datatype Sync = Sync(
    world: WorldState,
    slots: Slots,
    worlds: map<u32, View>,
    sent: set<WorldSnapshot>,
    client: Engine,
    blank: bool)

  /** `Change` is all gameplay between two ticks: moves, spawns, despawns. `Tick`
      stores the tick and sends one snapshot for whatever tick the server believes
      the client acked, true or not. */
  datatype Step =
    | Change(world: WorldState)
    | Tick(time: nat, stored: seq<EntityState>, acked: u32, commandAck: u32, listing: seq<EntityState>)
    | Deliver(snapshot: WorldSnapshot, localTime: real, order: seq<EntityState>)
    | Clean(renderTime: real)
    | ResetClient

  function Start(capacity: nat, config: Config): Sync
    requires capacity > 0
  {
    Sync(FreshWorld(), Empty(capacity), map[], {}, FreshEngine(config), false)
  }

  function Stored(s: Sync, step: Step): Slots
    requires step.Tick?
  {
    Put(s.slots, WorldSnapshot(Advance(s.world).tick, step.time, 0, 0, false, step.stored, []))
  }

  ghost predicate Enabled(s: Sync, step: Step) {
    match step
    case Change(w) => WellFormed(w) && w.tick == s.world.tick
    case Tick(_, stored, acked, _, listing) =>
      var w := Advance(s.world);
      && s.world.tick < MAX32
      && Lists(stored, NetworkView(w))
      && Lists(listing, ToList(NetworkView(w), ChosenBaseline(Stored(s, step), w.tick, acked)))
    case Deliver(snapshot, _, order) =>
      snapshot in s.sent && (snapshot.isDelta && Expanded(s.client, snapshot).Some? ==>
                               Lists(order, Expanded(s.client, snapshot).value))
    case Clean(_) => true
    case ResetClient => true
  }

  function Next(s: Sync, step: Step): Sync {
    match step
    case Change(w) => s.(world := w)
    case Tick(time, _, acked, commandAck, listing) =>
      var w := Advance(s.world);
      s.(world := w,
         slots := Stored(s, step),
         worlds := s.worlds[w.tick := NetworkView(w)],
         sent := s.sent + {ClientSnapshot(w, Stored(s, step), acked, commandAck, time, listing)})
    case Deliver(snapshot, localTime, order) =>
      s.(client := Push(s.client, snapshot, localTime, order), blank := s.blank && Expanded(s.client, snapshot) == None)
    case Clean(renderTime) => s.(client := Cleanup(s.client.(renderTime := renderTime)))
    case ResetClient => s.(client := Reset(s.client), blank := true)
  }

  ghost predicate IsRun(states: seq<Sync>, steps: seq<Step>, capacity: nat, config: Config)
    requires capacity > 0
  {
    && |states| == |steps| + 1
    && states[0] == Start(capacity, config)
    && forall i :: 0 <= i < |steps| ==> Enabled(states[i], steps[i]) && states[i + 1] == Next(states[i], steps[i])
  }

  // ---------------------------------------------------------------- invariant

  /** A snapshot says what the server showed at its tick, outright or against an
      earlier tick, which is never tick 0. */
  ghost predicate Genuine(s: WorldSnapshot, worlds: map<u32, View>) {
    && s.tick in worlds
    && if s.isDelta then
         && s.baselineTick > 0 && s.baselineTick in worlds
         && IsDelta(s.entities, s.removedEntityIds, worlds[s.tick], worlds[s.baselineTick])
       else Lists(s.entities, worlds[s.tick]) && s.removedEntityIds == []
  }

  /** The client's buffered copy of a tick is the server's, frames aside. */
  ghost predicate Faithful(s: WorldSnapshot, worlds: map<u32, View>) {
    s.tick in worlds && KeyedById(ViewOf(s.entities)) && Similar(ViewOf(s.entities), worlds[s.tick])
  }

  ghost predicate KnowsTruth(client: Engine, worlds: map<u32, View>) {
    if client.knowledgeTick == 0 then client.known == map[]
    else
      && client.knowledgeTick in worlds && KeyedById(client.known)
      && Similar(client.known, worlds[client.knowledgeTick])
  }

  ghost predicate ServerInv(s: Sync) {
    && WellFormed(s.world)
    && (forall t :: t in s.worlds ==> 0 < t <= s.world.tick && KeyedById(s.worlds[t]))
    && (forall slot :: slot in s.slots && slot.Some? ==> !slot.value.isDelta && Genuine(slot.value, s.worlds))
    && (forall m :: m in s.sent ==> Genuine(m, s.worlds))
  }

  predicate IsBlank(client: Engine) { client.known == map[] && client.snapshots == [] }

  ghost predicate ClientInv(s: Sync) {
    && (if s.blank then IsBlank(s.client) else KnowsTruth(s.client, s.worlds))
    && forall t :: t in s.client.snapshots ==> Faithful(t.snapshot, s.worlds)
  }

  ghost predicate Inv(s: Sync) { ServerInv(s) && ClientInv(s) }

  // ------------------------------------------------------------------- server

  lemma LookupIsStored(slots: Slots, tick: u32)
    ensures Lookup(slots, tick).Some? ==> Lookup(slots, tick) in slots && Lookup(slots, tick).value.tick == tick
  {
  }

  /** What the server sends is genuine, whatever it believes was acked. */
  lemma SentIsGenuine(w: WorldState, slots: Slots, acked: u32, commandAck: u32, time: nat, listing: seq<EntityState>,
                      worlds: map<u32, View>)
    requires w.tick in worlds && worlds[w.tick] == NetworkView(w) && w.removed == []
    requires forall t :: t in worlds ==> 0 < t && KeyedById(worlds[t])
    requires forall slot :: slot in slots && slot.Some? ==> !slot.value.isDelta && Genuine(slot.value, worlds)
    requires Lists(listing, ToList(NetworkView(w), ChosenBaseline(slots, w.tick, acked)))
    ensures Genuine(ClientSnapshot(w, slots, acked, commandAck, time, listing), worlds)
  {
    var baseline := ChosenBaseline(slots, w.tick, acked);
    if baseline.Some? {
      LookupIsStored(slots, acked);
      var b := baseline.value;
      assert Genuine(b, worlds);
      ListsIsView(b.entities, worlds[b.tick]);
      GoneExactly(b.entities, worlds[b.tick], NetworkView(w));
    }
  }

  /** Adding a new tick keeps what was genuine or faithful. */
  lemma HistoryGrows(m: WorldSnapshot, worlds: map<u32, View>, t: u32, view: View)
    requires t !in worlds
    ensures Genuine(m, worlds) ==> Genuine(m, worlds[t := view])
    ensures Faithful(m, worlds) ==> Faithful(m, worlds[t := view])
  {
  }

  lemma TickKeepsServer(s: Sync, step: Step)
    requires step.Tick? && Enabled(s, step) && ServerInv(s)
    ensures ServerInv(Next(s, step))
  {
    var s' := Next(s, step);
    var w := Advance(s.world);
    AdvanceKeepsWellFormed(s.world);
    AdvanceKeepsWellFormed(w);
    var snapshot := WorldSnapshot(w.tick, step.time, 0, 0, false, step.stored, []);
    assert Genuine(snapshot, s'.worlds);
    forall slot | slot in s'.slots && slot.Some? ensures !slot.value.isDelta && Genuine(slot.value, s'.worlds) {
      if slot in s.slots { HistoryGrows(slot.value, s.worlds, w.tick, NetworkView(w)); }
    }
    SentIsGenuine(w, s'.slots, step.acked, step.commandAck, step.time, step.listing, s'.worlds);
    forall m | m in s.sent ensures Genuine(m, s'.worlds) {
      HistoryGrows(m, s.worlds, w.tick, NetworkView(w));
    }
  }

  lemma TickKeepsClient(s: Sync, step: Step)
    requires step.Tick? && Enabled(s, step) && Inv(s)
    ensures ClientInv(Next(s, step))
  {
    var w := Advance(s.world);
    forall t | t in s.client.snapshots ensures Faithful(t.snapshot, Next(s, step).worlds) {
      HistoryGrows(t.snapshot, s.worlds, w.tick, NetworkView(w));
    }
  }

  // ------------------------------------------------------------------- client

  /** Expanding a genuine snapshot gives the server's view of its tick, whether
      outright, from current knowledge or from a recovered baseline. */
  lemma ExpandIsFaithful(client: Engine, s: WorldSnapshot, worlds: map<u32, View>)
    requires Genuine(s, worlds) && KnowsTruth(client, worlds)
    requires forall t :: t in worlds ==> KeyedById(worlds[t])
    requires forall t :: t in client.snapshots ==> Faithful(t.snapshot, worlds)
    requires Expanded(client, s).Some?
    ensures KeyedById(Expanded(client, s).value) && Similar(Expanded(client, s).value, worlds[s.tick])
  {
    if !s.isDelta {
      FullIsFaithful(client, s, worlds);
    } else {
      var base := Baseline(client, s.baselineTick).value;
      if s.baselineTick != client.knowledgeTick {
        FindByTickFinds(client.snapshots, s.baselineTick);
        var t :| t in client.snapshots && t.snapshot.tick == s.baselineTick
                 && FindByTick(client.snapshots, s.baselineTick) == Some(t.snapshot);
        assert Faithful(t.snapshot, worlds);
      }
      DeltaRoundTrip(base, s.entities, s.removedEntityIds, worlds[s.tick], worlds[s.baselineTick]);
    }
  }

  /** A full snapshot needs no knowledge. */
  lemma FullIsFaithful(client: Engine, s: WorldSnapshot, worlds: map<u32, View>)
    requires Genuine(s, worlds) && !s.isDelta && KeyedById(worlds[s.tick])
    ensures Expanded(client, s) == Some(worlds[s.tick])
  {
    ListsIsView(s.entities, worlds[s.tick]);
    assert RemoveAll(ViewOf(s.entities), []) == ViewOf(s.entities);
  }

  lemma StoreMembers(buffer: seq<Timed>, t: Timed, max: nat)
    ensures forall u :: u in Store(buffer, t, max) ==> u in buffer || u == t
  {
    InsertMembers(buffer, t);
    forall u | u in Store(buffer, t, max) ensures u in Insert(buffer, t) {}
  }

  /** What a delta does to an engine that knows nothing: against any tick but the
      knowledge tick it is refused; against that one it is applied to nothing, and
      the result is right exactly if the delta lists the whole world. */
  lemma BlankExpands(e: Engine, s: WorldSnapshot, worlds: map<u32, View>)
    requires Genuine(s, worlds) && s.isDelta && IsBlank(e)
    requires forall t :: t in worlds ==> KeyedById(worlds[t])
    ensures if s.baselineTick != e.knowledgeTick then Expanded(e, s) == None
            else Expanded(e, s).Some? && (Similar(Expanded(e, s).value, worlds[s.tick]) <==> ListsWholeWorld(s, worlds))
    ensures Expanded(e, s).Some? && ListsWholeWorld(s, worlds) ==> KeyedById(Expanded(e, s).value)
  {
    if s.baselineTick == e.knowledgeTick {
      var changed := Changed(worlds[s.tick], worlds[s.baselineTick]);
      InsertAllEffect(map[], s.entities, changed);
      var result := ApplyDelta(map[], s.entities, s.removedEntityIds);
      assert Expanded(e, s) == Some(result);
      forall id ensures id in result <==> id in changed {
        if id in changed { assert changed[id] in s.entities; }
      }
    }
  }

  predicate ListsWholeWorld(s: WorldSnapshot, worlds: map<u32, View>) {
    s.tick in worlds && s.baselineTick in worlds
    && worlds[s.tick].Keys <= Changed(worlds[s.tick], worlds[s.baselineTick]).Keys
  }

  /** What `push_snapshot` does not check: after a reset, a delta against the tick
      that was known before must not be taken, unless it lists the whole world. */
  predicate DeliverOk(s: Sync, step: Step) {
    step.Deliver? && s.blank && step.snapshot.isDelta && step.snapshot.baselineTick == s.client.knowledgeTick ==>
      ListsWholeWorld(step.snapshot, s.worlds)
  }

  lemma StoredIsFaithful(s: Sync, m: WorldSnapshot, order: seq<EntityState>)
    requires ServerInv(s) && m in s.sent && Expanded(s.client, m).Some?
    requires m.isDelta ==> Lists(order, Expanded(s.client, m).value)
    requires KeyedById(Expanded(s.client, m).value) && Similar(Expanded(s.client, m).value, s.worlds[m.tick])
    ensures Faithful(FullSnapshot(m, order), s.worlds)
  {
    if m.isDelta {
      ListsIsView(order, Expanded(s.client, m).value);
    } else {
      assert Genuine(m, s.worlds);
      ListsIsView(m.entities, s.worlds[m.tick]);
    }
  }

  lemma TruthfulDeliver(s: Sync, step: Step)
    requires step.Deliver? && Enabled(s, step) && Inv(s) && Expanded(s.client, step.snapshot).Some?
    requires var view := Expanded(s.client, step.snapshot).value;
             KeyedById(view) && Similar(view, s.worlds[step.snapshot.tick])
    ensures ClientInv(Next(s, step))
  {
    var m := step.snapshot;
    StoredIsFaithful(s, m, step.order);
    StoreMembers(s.client.snapshots, Timed(FullSnapshot(m, step.order), m.serverTimeMs as real),
                 s.client.config.maxBufferSnapshots);
  }

  /** Every buffered snapshot equals the server's world at its tick, and so do the
      known entities at the knowledge tick, up to animation frames. */
  ghost predicate Truthful(s: Sync) {
    && (forall t :: t in s.client.snapshots ==>
          t.snapshot.tick in s.worlds && Similar(ViewOf(t.snapshot.entities), s.worlds[t.snapshot.tick]))
    && (!s.blank && s.client.knowledgeTick > 0 ==>
          s.client.knowledgeTick in s.worlds && Similar(s.client.known, s.worlds[s.client.knowledgeTick]))
  }

  /** One delivery keeps the client truthful exactly if the guard holds; a delivery
      that fails it leaves known entities that are wrong for the knowledge tick. */
  lemma DeliverKeepsExactly(s: Sync, step: Step)
    requires step.Deliver? && Enabled(s, step) && Inv(s)
    ensures ClientInv(Next(s, step)) <==> DeliverOk(s, step)
    ensures Truthful(Next(s, step)) <==> DeliverOk(s, step)
  {
    var m := step.snapshot;
    assert Genuine(m, s.worlds);
    if s.blank && m.isDelta {
      BlankExpands(s.client, m, s.worlds);
      if m.baselineTick == s.client.knowledgeTick && DeliverOk(s, step) { TruthfulDeliver(s, step); }
    } else if Expanded(s.client, m).Some? {
      if m.isDelta {
        ExpandIsFaithful(s.client, m, s.worlds);
      } else {
        FullIsFaithful(s.client, m, s.worlds);
      }
      TruthfulDeliver(s, step);
    }
    if ClientInv(Next(s, step)) { InvIsTruthful(Next(s, step)); }
  }

  lemma InvIsTruthful(s: Sync)
    requires ClientInv(s)
    ensures Truthful(s)
  {
    forall t | t in s.client.snapshots
      ensures t.snapshot.tick in s.worlds && Similar(ViewOf(t.snapshot.entities), s.worlds[t.snapshot.tick])
    {
      assert Faithful(t.snapshot, s.worlds);
    }
  }

  lemma CleanKeepsClient(s: Sync, step: Step)
    requires step.Clean? && ClientInv(s)
    ensures ClientInv(Next(s, step))
  {
    RetainExactly(s.client.snapshots, step.renderTime - s.client.config.snapshotRetentionMs);
  }

  lemma StepKeepsExactly(s: Sync, step: Step)
    requires Enabled(s, step) && Inv(s)
    ensures Inv(Next(s, step)) <==> DeliverOk(s, step)
    ensures Truthful(Next(s, step)) <==> DeliverOk(s, step)
  {
    if !step.Deliver? { StepKeepsInv(s, step); InvIsTruthful(Next(s, step)); } else { DeliverKeepsExactly(s, step); }
  }

  lemma StepKeepsInv(s: Sync, step: Step)
    requires Enabled(s, step) && Inv(s) && DeliverOk(s, step)
    ensures Inv(Next(s, step))
  {
    match step
    case Change(_) =>
    case Tick(_, _, _, _, _) => TickKeepsServer(s, step); TickKeepsClient(s, step);
    case Deliver(_, _, _) => DeliverKeepsExactly(s, step);
    case Clean(_) => CleanKeepsClient(s, step);
    case ResetClient =>
  }

  /** Delta sync is never wrong. In every run, resets included, under loss,
      duplication and reordering of snapshots and any beliefs about acks: the
      client is truthful as long as no delta against the tick known before is
      taken first after a reset. */
  lemma {:induction false} NeverWrong(states: seq<Sync>, steps: seq<Step>, capacity: nat, config: Config, i: nat)
    requires capacity > 0 && IsRun(states, steps, capacity, config) && i <= |steps|
    requires forall j :: 0 <= j < i ==> DeliverOk(states[j], steps[j])
    ensures Inv(states[i]) && Truthful(states[i])
  {
    if i == 0 {
    } else {
      assert Enabled(states[i - 1], steps[i - 1]) && states[i - 1 + 1] == Next(states[i - 1], steps[i - 1]);
      NeverWrong(states, steps, capacity, config, i - 1);
      StepKeepsExactly(states[i - 1], steps[i - 1]);
    }
  }

  /** The guard is exact over whole runs: the client is truthful at every point if
      and only if no delivery fails it. */
  lemma NeverWrongExactly(states: seq<Sync>, steps: seq<Step>, capacity: nat, config: Config)
    requires capacity > 0 && IsRun(states, steps, capacity, config)
    ensures (forall i :: 0 <= i <= |steps| ==> Truthful(states[i]))
            <==> (forall j :: 0 <= j < |steps| ==> DeliverOk(states[j], steps[j]))
  {
    if forall j :: 0 <= j < |steps| ==> DeliverOk(states[j], steps[j]) {
      forall i | 0 <= i <= |steps| ensures Truthful(states[i]) { NeverWrong(states, steps, capacity, config, i); }
    }
    if forall i :: 0 <= i <= |steps| ==> Truthful(states[i]) {
      GuardIsNeeded(states, steps, capacity, config, |steps|);
    }
  }

  lemma {:induction false} GuardIsNeeded(states: seq<Sync>, steps: seq<Step>, capacity: nat, config: Config, n: nat)
    requires capacity > 0 && IsRun(states, steps, capacity, config) && n <= |steps|
    requires forall i :: 0 <= i <= n ==> Truthful(states[i])
    ensures forall j :: 0 <= j < n ==> DeliverOk(states[j], steps[j])
  {
    if n == 0 {
    } else {
      GuardIsNeeded(states, steps, capacity, config, n - 1);
      NeverWrong(states, steps, capacity, config, n - 1);
      assert Enabled(states[n - 1], steps[n - 1]) && states[n - 1 + 1] == Next(states[n - 1], steps[n - 1]);
      StepKeepsExactly(states[n - 1], steps[n - 1]);
    }
  }

  lemma {:induction false} NotBlank(states: seq<Sync>, steps: seq<Step>, capacity: nat, config: Config, i: nat)
    requires capacity > 0 && IsRun(states, steps, capacity, config) && i <= |steps|
    requires forall j :: 0 <= j < i ==> !steps[j].ResetClient?
    ensures !states[i].blank
  {
    if i == 0 {
    } else {
      assert Enabled(states[i - 1], steps[i - 1]) && states[i - 1 + 1] == Next(states[i - 1], steps[i - 1]);
      NotBlank(states, steps, capacity, config, i - 1);
    }
  }

  /** Without a reset nothing has to be assumed. */
  lemma NeverWrongFromFresh(states: seq<Sync>, steps: seq<Step>, capacity: nat, config: Config, i: nat)
    requires capacity > 0 && IsRun(states, steps, capacity, config) && i <= |steps|
    requires forall j :: 0 <= j < i ==> !steps[j].ResetClient?
    ensures Truthful(states[i]) && !states[i].blank
  {
    forall j | 0 <= j < i ensures DeliverOk(states[j], steps[j]) { NotBlank(states, steps, capacity, config, j); }
    NeverWrong(states, steps, capacity, config, i);
    NotBlank(states, steps, capacity, config, i);
  }

  // -------------------------------------------------------------------- reset

  /** After `reset` a delta against any other tick is refused, but one against the
      old knowledge tick is applied to nothing. */
  lemma AfterReset(client: Engine, s: WorldSnapshot, worlds: map<u32, View>)
    requires Genuine(s, worlds) && s.isDelta
    requires forall t :: t in worlds ==> KeyedById(worlds[t])
    ensures var e := Reset(client);
            if s.baselineTick != client.knowledgeTick then Expanded(e, s) == None
            else Expanded(e, s).Some? &&
                 (Similar(Expanded(e, s).value, worlds[s.tick]) <==>
                  worlds[s.tick].Keys <= Changed(worlds[s.tick], worlds[s.baselineTick]).Keys)
  {
    BlankExpands(Reset(client), s, worlds);
  }

  /** An instance. The client takes tick 1, is reset, and takes the delta from 1 to
      2: it now holds entity 2 alone as the world of tick 2. */
  lemma ResetForgetsEntity(config: Config, first: EntityState, second: EntityState)
    requires first.entityId == 1 && second.entityId == 2
    ensures var worlds: map<u32, View> := map[1 := map[1 := first], 2 := map[1 := first, 2 := second]];
            var full := WorldSnapshot(1, 0, 0, 0, false, [first], []);
            var delta := WorldSnapshot(2, 50, 0, 1, true, [second], []);
            var before := Push(FreshEngine(config), full, 0.0, []);
            var after := Push(Reset(before), delta, 50.0, [second]);
            && Genuine(full, worlds) && Genuine(delta, worlds)
            && Similar(before.known, worlds[1])
            && after.knowledgeTick == 2 && !Similar(after.known, worlds[2])
  {
    var worlds: map<u32, View> := map[1 := map[1 := first], 2 := map[1 := first, 2 := second]];
    var full := WorldSnapshot(1, 0, 0, 0, false, [first], []);
    var delta := WorldSnapshot(2, 50, 0, 1, true, [second], []);
    assert Lists([first], worlds[1]);
    ListsIsView([first], worlds[1]);
    assert RemoveAll(ViewOf([first]), []) == ViewOf([first]);
    var before := Push(FreshEngine(config), full, 0.0, []);
    assert before.known == worlds[1] && before.knowledgeTick == 1;
    assert Changed(worlds[2], worlds[1]) == map[2 := second];
    AfterReset(before, delta, worlds);
  }
}
