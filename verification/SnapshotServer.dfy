/** The server's side of snapshot synchronisation: what it stores each tick, and
    whether a client gets a delta or the whole world. */
module SnapshotServer {
  import opened Serial
  import opened Protocol
  import opened World
  import opened SnapshotBuffer

  function Age(current: u32, acked: u32): u32 { if current > acked then current - acked else 0 }

  /** The baseline chosen for a client that acked `acked`, if any. */
  function ChosenBaseline(slots: Slots, current: u32, acked: u32): Option<WorldSnapshot> {
    if acked > 0 && Age(current, acked) < |slots| / 2 then Lookup(slots, acked) else None
  }

  /** The entities the snapshot has to list. */
  function ToList(view: View, baseline: Option<WorldSnapshot>): View {
    match baseline
    case Some(b) => Changed(view, ViewOf(b.entities))
    case None => view
  }

  /** The snapshot sent, given the order in which its entities are listed. */
  function ClientSnapshot(
    w: WorldState, slots: Slots, acked: u32, commandAck: u32, time: nat, listing: seq<EntityState>)
    : WorldSnapshot
  {
    match ChosenBaseline(slots, w.tick, acked)
    case Some(b) => WorldSnapshot(w.tick, time, commandAck, b.tick, true, listing, Gone(b.entities, NetworkView(w)))
    case None => WorldSnapshot(w.tick, time, commandAck, 0, false, listing, w.removed)
  }

  /** A client gets a delta exactly if it acked a real tick younger than half the
      buffer, with consecutive ticks stored from tick `first` to the current one. */
  lemma DeltaExactlyWhen(capacity: nat, pushed: seq<WorldSnapshot>, acked: u32)
    requires capacity > 0 && pushed != [] && Consecutive(pushed) && pushed[0].tick > 0
    ensures var first, current := pushed[0].tick, pushed[0].tick + |pushed| - 1;
            ChosenBaseline(PutAll(capacity, pushed), pushed[|pushed| - 1].tick, acked) ==
            if first <= acked <= current && current - acked < capacity / 2 then Some(pushed[acked - first]) else None
  {
    HoldsLastCapacity(capacity, pushed, acked);
  }

  class Server {
    const world: GameWorld
    const snapshotHistory: Buffer
    var tick: u32

    ghost predicate Valid()
      reads this, world, snapshotHistory, snapshotHistory.snapshots
    {
      && snapshotHistory.Valid()
      && WellFormed(world.Value())
      && forall s :: s in snapshotHistory.Value() && s.Some? ==> ListsItself(s.value)
    }

    constructor (capacity: nat)
      requires capacity > 0
      ensures Valid() && world.Value() == FreshWorld() && snapshotHistory.Value() == Empty(capacity) && tick == 0
      ensures fresh(world) && fresh(snapshotHistory) && fresh(snapshotHistory.snapshots)
    {
      world := new GameWorld();
      snapshotHistory := new Buffer(capacity);
      tick := 0;
    }

    /** The bookkeeping part of a tick: advance, then store the full snapshot. */
    method StoreTick(serverTimeMs: nat) returns (snapshot: WorldSnapshot)
      requires Valid()
      modifies this, world, snapshotHistory.snapshots
      ensures Valid()
      ensures world.Value() == Advance(old(world.Value())) && tick == world.tick
      ensures snapshotHistory.Value() == Put(old(snapshotHistory.Value()), snapshot)
      ensures snapshot == WorldSnapshot(tick, serverTimeMs, 0, 0, false, snapshot.entities, [])
      ensures Lists(snapshot.entities, NetworkView(world.Value()))
    {
      world.AdvanceTick();
      tick := world.tick;
      snapshot := world.TakeSnapshot(0, serverTimeMs);
      ListsIsView(snapshot.entities, NetworkView(world.Value()));
      snapshotHistory.Push(snapshot);
    }

    method GenerateClientSnapshot(lastCmdAck: u32, lastAckedTick: u32, serverTimeMs: nat) returns (s: WorldSnapshot)
      requires Valid()
      ensures s == ClientSnapshot(world.Value(), snapshotHistory.Value(), lastAckedTick, lastCmdAck, serverTimeMs,
                                  s.entities)
      ensures Lists(s.entities, ToList(NetworkView(world.Value()),
                                       ChosenBaseline(snapshotHistory.Value(), world.tick, lastAckedTick)))
      ensures s.tick == world.tick && s.lastCommandAck == lastCmdAck && s.serverTimeMs == serverTimeMs
      ensures s.baselineTick == if s.isDelta then lastAckedTick else 0
      ensures var n := snapshotHistory.snapshots.Length;
              var slot := snapshotHistory.snapshots[lastAckedTick % n];
              s.isDelta <==> && lastAckedTick > 0 && (world.tick <= lastAckedTick || world.tick - lastAckedTick < n / 2)
                             && n / 2 > 0 && slot.Some? && slot.value.tick == lastAckedTick
      ensures !s.isDelta ==>
                Lists(s.entities, NetworkView(world.Value())) && s.removedEntityIds == world.removedEntities
    {
      var baselineAge := if world.tick > lastAckedTick then world.tick - lastAckedTick else 0;
      if lastAckedTick > 0 && baselineAge < snapshotHistory.snapshots.Length / 2 {
        var baseline := snapshotHistory.Get(lastAckedTick);
        if baseline.Some? {
          assert ListsItself(baseline.value);
          s := world.DeltaFromBaseline(baseline.value, lastCmdAck, serverTimeMs, ViewOf(baseline.value.entities));
          return;
        }
      }
      s := world.TakeSnapshot(lastCmdAck, serverTimeMs);
    }
  }

  /** The snapshot lists each entity once. */
  ghost predicate ListsItself(s: WorldSnapshot) {
    Lists(s.entities, ViewOf(s.entities)) && KeyedById(ViewOf(s.entities))
  }
}
