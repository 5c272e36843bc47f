/** The server's ring of snapshots, keyed by tick modulo capacity. */
module SnapshotBuffer {
  import opened Serial
  import opened Protocol

  type Slots = s: seq<Option<WorldSnapshot>> | |s| > 0 witness [None]

  function Empty(capacity: nat): Slots
    requires capacity > 0
  {
    seq(capacity, i => None)
  }

  function Put(slots: Slots, s: WorldSnapshot): Slots {
    slots[s.tick % |slots| := Some(s)]
  }

  function Lookup(slots: Slots, tick: u32): Option<WorldSnapshot> {
    var slot := slots[tick % |slots|];
    if slot.Some? && slot.value.tick == tick then slot else None
  }

  function PutAll(capacity: nat, pushed: seq<WorldSnapshot>): (slots: Slots)
    requires capacity > 0
    ensures |slots| == capacity
  {
    if pushed == [] then Empty(capacity) else Put(PutAll(capacity, pushed[..|pushed| - 1]), pushed[|pushed| - 1])
  }

  ghost predicate Consecutive(pushed: seq<WorldSnapshot>) {
    forall i :: 0 <= i < |pushed| ==> pushed[i].tick == pushed[0].tick + i
  }

  lemma Multiples(k: int, c: nat)
    ensures k <= 0 ==> k * c <= 0
    ensures k >= 1 ==> k * c >= c
  {
    if k >= 1 { assert (k - 1) * c >= 0; } else { assert (-k) * c >= 0; }
  }

  lemma SameSlotFarApart(u: nat, v: nat, capacity: nat)
    requires capacity > 0 && u < v && u % capacity == v % capacity
    ensures v - u >= capacity
  {
    var laps := v / capacity - u / capacity;
    assert v - u == laps * capacity;
    Multiples(laps, capacity);
  }

  lemma OneLapSameSlot(u: nat, capacity: nat)
    requires capacity > 0
    ensures (u + capacity) % capacity == u % capacity
  {
    var r, s := u % capacity, (u + capacity) % capacity;
    var laps := (u + capacity) / capacity - u / capacity - 1;
    assert laps * capacity == r - s;
    assert (-laps) * capacity == s - r;
    Multiples(laps, capacity);
    Multiples(-laps, capacity);
  }

  /** With consecutive ticks pushed, a tick is found exactly if it is one of the
      last `capacity` pushed, and then with the snapshot pushed for it. */
  lemma {:induction false} HoldsLastCapacity(capacity: nat, pushed: seq<WorldSnapshot>, tick: u32)
    requires capacity > 0 && pushed != [] && Consecutive(pushed)
    ensures var first, next := pushed[0].tick, pushed[0].tick + |pushed|;
            Lookup(PutAll(capacity, pushed), tick) ==
            if first <= tick < next && next - tick <= capacity then Some(pushed[tick - first]) else None
  {
    var front, last := pushed[..|pushed| - 1], pushed[|pushed| - 1];
    var t := last.tick;
    if tick % capacity == t % capacity && tick != t {
      if tick < t { SameSlotFarApart(tick, t, capacity); }
    } else if tick + capacity == t {
      OneLapSameSlot(tick, capacity);
    }
    if front == [] {
      assert Empty(capacity)[tick % capacity] == None;
    } else {
      HoldsLastCapacity(capacity, front, tick);
    }
  }

  class Buffer {
    const snapshots: array<Option<WorldSnapshot>>

    ghost predicate Valid() { snapshots.Length > 0 }

    ghost function Value(): Slots
      requires Valid()
      reads snapshots
    {
      snapshots[..]
    }

    constructor (capacity: nat)
      requires capacity > 0
      ensures Valid() && fresh(snapshots) && Value() == Empty(capacity)
    {
      snapshots := new Option<WorldSnapshot>[capacity](i => None);
    }

    method Push(s: WorldSnapshot)
      requires Valid()
      modifies snapshots
      ensures Value() == Put(old(Value()), s)
      ensures snapshots[s.tick % snapshots.Length] == Some(s)
      ensures forall i :: 0 <= i < snapshots.Length && i != s.tick % snapshots.Length ==>
                snapshots[i] == old(snapshots[i])
    {
      var index := s.tick % snapshots.Length;
      snapshots[index] := Some(s);
    }

    method Get(tick: u32) returns (s: Option<WorldSnapshot>)
      requires Valid()
      ensures s == Lookup(Value(), tick)
      ensures var slot := snapshots[tick % snapshots.Length];
              s == if slot.Some? && slot.value.tick == tick then slot else None
    {
      var index := tick % snapshots.Length;
      s := snapshots[index];
      if s.Some? && s.value.tick != tick {
        s := None;
      }
    }

    method Latest() returns (best: Option<WorldSnapshot>)
      requires Valid()
      ensures best.Some? ==> best in Value()
      ensures forall s :: s in Value() && s.Some? ==> best.Some? && s.value.tick <= best.value.tick
    {
      best := None;
      for i := 0 to snapshots.Length
        invariant best.Some? ==> best in snapshots[..]
        invariant forall j :: 0 <= j < i && snapshots[j].Some? ==>
                    best.Some? && snapshots[j].value.tick <= best.value.tick
      {
        if snapshots[i].Some? && (best.None? || snapshots[i].value.tick >= best.value.tick) {
          best := snapshots[i];
        }
      }
    }

    method Clear()
      requires Valid()
      modifies snapshots
      ensures Value() == Empty(snapshots.Length) && forall i :: 0 <= i < snapshots.Length ==> snapshots[i] == None
    {
      for i := 0 to snapshots.Length
        invariant forall j :: 0 <= j < i ==> snapshots[j] == None
      {
        snapshots[i] := None;
      }
      assert snapshots[..] == Empty(snapshots.Length);
    }
  }
}
