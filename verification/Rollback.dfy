/** Fixed-step simulation with a ring of physics states to roll back to.

    One tick's game logic and physics step are one function of the physics state
    and that tick's input. */
module Rollback {
  import opened Serial
  import opened Protocol
  import opened SnapshotBuffer

  // ------------------------------------------------------------------ history

  /** Parallel arrays: a state and the tick it belongs to. */
  datatype History<P> = History(snapshots: seq<Option<P>>, ticks: seq<u32>)

  predicate ValidHistory<P>(h: History<P>) { |h.snapshots| == |h.ticks| > 0 }

  function EmptyHistory<P>(capacity: nat): History<P> {
    History(seq(capacity, i => None), seq(capacity, i => MAX32))
  }

  function Push<P>(h: History<P>, tick: u32, state: P): History<P>
    requires ValidHistory(h)
  {
    var index := tick % |h.ticks|;
    History(h.snapshots[index := Some(state)], h.ticks[index := tick])
  }

  function Get<P>(h: History<P>, tick: u32): Option<P>
    requires ValidHistory(h)
  {
    var index := tick % |h.ticks|;
    if h.ticks[index] == tick then h.snapshots[index] else None
  }

  /** Pushing a tick makes it readable and disturbs only ticks sharing its slot. */
  lemma GetAfterPush<P>(h: History<P>, tick: u32, state: P, u: u32)
    requires ValidHistory(h)
    ensures ValidHistory(Push(h, tick, state))
    ensures Get(Push(h, tick, state), u) ==
            if u == tick then Some(state) else if u % |h.ticks| == tick % |h.ticks| then None else Get(h, u)
  {
  }

  lemma PushAgainChangesNothing<P>(h: History<P>, tick: u32, state: P)
    requires ValidHistory(h) && Get(h, tick) == Some(state)
    ensures Push(h, tick, state) == h
  {
  }

  // --------------------------------------------------------------- simulation

  datatype Sim<P> = Sim(tick: u32, physics: P, history: History<P>)

  type StepFn<!P, !I> = (P, I) -> P

  function Tick<P, I>(step: StepFn<P, I>, s: Sim<P>, input: I): Sim<P>
    requires ValidHistory(s.history)
  {
    Sim(WrapInc32(s.tick), step(s.physics, input), Push(s.history, s.tick, s.physics))
  }

  function TickAll<P, I>(step: StepFn<P, I>, s: Sim<P>, inputs: seq<I>): (r: Sim<P>)
    requires ValidHistory(s.history)
    ensures ValidHistory(r.history)
    decreases |inputs|
  {
    if inputs == [] then s else TickAll(step, Tick(step, s, inputs[0]), inputs[1..])
  }

  function RollbackTo<P>(s: Sim<P>, tick: u32): Option<Sim<P>>
    requires ValidHistory(s.history)
  {
    match Get(s.history, tick)
    case Some(p) => Some(Sim(tick, p, s.history))
    case None => None
  }

  // ----------------------------------------------------------------- timeline

  /** A simulation with the timeline it is on: the state at every tick so far and
      the input between each two. Rolling back cuts the timeline short. */
  datatype Run<P, I> = Run(sim: Sim<P>, timeline: seq<P>, inputs: seq<I>)

  datatype Event<I> = Advance(input: I) | Rewind(tick: u32)

  function StartRun<P, I>(initial: P, capacity: nat): Run<P, I> {
    Run(Sim(0, initial, EmptyHistory(capacity)), [initial], [])
  }

  /** What a caller can check before rolling back: the tick is below the current
      one, or not resident, or is the current tick with the current state. */
  ghost predicate RewindOk<P, I>(r: Run<P, I>, tick: u32)
    requires ValidHistory(r.sim.history)
  {
    || tick < r.sim.tick
    || Get(r.sim.history, tick) == None
    || (tick == r.sim.tick && Get(r.sim.history, tick) == Some(r.sim.physics))
  }

  /** Ticks do not wrap. */
  ghost predicate Enabled<P, I>(r: Run<P, I>, event: Event<I>) {
    && ValidHistory(r.sim.history)
    && match event
       case Advance(_) => r.sim.tick < MAX32
       case Rewind(tick) => RewindOk(r, tick)
  }

  function Cut<T>(q: seq<T>, n: nat): seq<T> { if n <= |q| then q[..n] else q }

  function NextRun<P, I>(step: StepFn<P, I>, r: Run<P, I>, event: Event<I>): Run<P, I>
    requires ValidHistory(r.sim.history)
  {
    match event
    case Advance(input) =>
      var sim := Tick(step, r.sim, input);
      Run(sim, r.timeline + [sim.physics], r.inputs + [input])
    case Rewind(tick) =>
      match RollbackTo(r.sim, tick)
      case Some(sim) => Run(sim, Cut(r.timeline, tick + 1), Cut(r.inputs, tick))
      case None => r
  }

  ghost predicate IsRun<P, I>(
    step: StepFn<P, I>, states: seq<Run<P, I>>, events: seq<Event<I>>, initial: P, capacity: nat)
  {
    && |states| == |events| + 1
    && states[0] == StartRun(initial, capacity)
    && forall i :: 0 <= i < |events| ==>
         Enabled(states[i], events[i]) && states[i + 1] == NextRun(step, states[i], events[i])
  }

  predicate Resident<P, I>(r: Run<P, I>, u: u32)
    requires ValidHistory(r.sim.history)
  {
    Get(r.sim.history, u).Some?
  }

  ghost predicate TimelineInv<P, I>(step: StepFn<P, I>, r: Run<P, I>) {
    && |r.timeline| == r.sim.tick + 1 && |r.inputs| == r.sim.tick
    && r.sim.physics == r.timeline[r.sim.tick]
    && forall u: nat :: u < r.sim.tick ==> r.timeline[u + 1] == step(r.timeline[u], r.inputs[u])
  }

  ghost predicate Inv<P, I>(step: StepFn<P, I>, r: Run<P, I>) {
    && ValidHistory(r.sim.history) && TimelineInv(step, r)
    && (forall u: u32 :: u < r.sim.tick && Resident(r, u) ==> Get(r.sim.history, u) == Some(r.timeline[u]))
    && (forall u: u32, v: u32 :: u <= v < r.sim.tick && Resident(r, u) ==> Resident(r, v))
  }

  /** A resident tick is at most one lap old. */
  lemma ResidentIsRecent<P, I>(step: StepFn<P, I>, r: Run<P, I>, u: u32)
    requires Inv(step, r) && u < r.sim.tick && Resident(r, u)
    ensures r.sim.tick - u <= |r.sim.history.ticks|
  {
    if u + |r.sim.history.ticks| <= MAX32 { NextLapIsNotResident(r, u); }
  }

  lemma NextLapIsNotResident<P, I>(r: Run<P, I>, u: u32)
    requires ValidHistory(r.sim.history) && Resident(r, u) && u + |r.sim.history.ticks| <= MAX32
    ensures !Resident(r, u + |r.sim.history.ticks|)
  {
    OneLapSameSlot(u, |r.sim.history.ticks|);
  }

  lemma AdvanceKeepsInv<P, I>(step: StepFn<P, I>, r: Run<P, I>, input: I)
    requires Inv(step, r) && r.sim.tick < MAX32
    ensures Inv(step, NextRun(step, r, Advance(input)))
  {
    var r' := NextRun(step, r, Advance(input));
    var t, h, capacity := r.sim.tick, r.sim.history, |r.sim.history.ticks|;
    assert r'.timeline[..t + 1] == r.timeline;
    forall u: u32 | u < r'.sim.tick && Resident(r', u) ensures Get(r'.sim.history, u) == Some(r'.timeline[u]) {
      GetAfterPush(h, t, r.sim.physics, u);
      if u < t { assert Resident(r, u); }
    }
    forall u: u32, v: u32 | u <= v < r'.sim.tick && Resident(r', u) ensures Resident(r', v) {
      GetAfterPush(h, t, r.sim.physics, u);
      GetAfterPush(h, t, r.sim.physics, v);
      if v < t {
        assert Resident(r, u) && Resident(r, v);
        ResidentIsRecent(step, r, u);
        if v % capacity == t % capacity { SameSlotFarApart(v, t, capacity); }
      }
    }
  }

  /** A rollback stays on the timeline if and only if the guard holds: rolling
      back to a resident tick past the current one, or to a stale entry at the
      current one, brings an abandoned state back. */
  lemma RewindKeepsExactly<P, I>(step: StepFn<P, I>, r: Run<P, I>, tick: u32)
    requires Inv(step, r)
    ensures Inv(step, NextRun(step, r, Rewind(tick))) <==> RewindOk(r, tick)
  {
    var r' := NextRun(step, r, Rewind(tick));
    if tick < r.sim.tick && Resident(r, tick) {
      forall u: u32 | u < tick && Resident(r', u) ensures Get(r'.sim.history, u) == Some(r'.timeline[u]) {
        assert Resident(r, u);
      }
      forall u: u32, v: u32 | u <= v < tick && Resident(r', u) ensures Resident(r', v) {
        assert Resident(r, u);
        assert Resident(r, v);
      }
    } else if tick == r.sim.tick {
      assert Cut(r.timeline, tick + 1) == r.timeline && Cut(r.inputs, tick) == r.inputs;
    }
  }

  /** In every run of ticks and rewinds, every history entry below the current
      tick is a state of the current timeline, never of an abandoned one. */
  lemma {:induction false} HistoryIsCurrent<P, I>(step: StepFn<P, I>, states: seq<Run<P, I>>, events: seq<Event<I>>,
                                                  initial: P, capacity: nat, i: nat)
    requires capacity > 0 && IsRun(step, states, events, initial, capacity) && i <= |events|
    ensures Inv(step, states[i])
    ensures forall u: u32 :: u < states[i].sim.tick && Resident(states[i], u) ==>
              Get(states[i].sim.history, u) == Some(states[i].timeline[u])
  {
    if i == 0 {
    } else {
      var r, event := states[i - 1], events[i - 1];
      assert Enabled(r, event) && states[i - 1 + 1] == NextRun(step, r, event);
      HistoryIsCurrent(step, states, events, initial, capacity, i - 1);
      match event
      case Advance(input) => AdvanceKeepsInv(step, r, input);
      case Rewind(tick) => RewindKeepsExactly(step, r, tick);
    }
  }

  /** Rolling back and rerunning the same inputs reaches the same state, tick and
      history, whatever was rolled back before. */
  lemma RollbackIsDeterministic<P, I>(step: StepFn<P, I>, states: seq<Run<P, I>>, events: seq<Event<I>>,
                                      initial: P, capacity: nat, tick: u32)
    requires capacity > 0 && IsRun(step, states, events, initial, capacity)
    requires var r := states[|events|]; tick < r.sim.tick && ValidHistory(r.sim.history) && Resident(r, tick)
    ensures var r := states[|events|];
            && RollbackTo(r.sim, tick).Some? && |r.inputs| == r.sim.tick
            && TickAll(step, RollbackTo(r.sim, tick).value, r.inputs[tick..]) == r.sim
  {
    HistoryIsCurrent(step, states, events, initial, capacity, |events|);
    var r := states[|events|];
    RerunReaches(step, r, tick);
  }

  lemma {:induction false} RerunReaches<P, I>(step: StepFn<P, I>, r: Run<P, I>, tick: u32)
    requires Inv(step, r) && tick <= r.sim.tick
    requires forall u: u32 :: tick <= u < r.sim.tick ==> Resident(r, u)
    ensures TickAll(step, Sim(tick, r.timeline[tick], r.sim.history), r.inputs[tick..]) == r.sim
    decreases r.sim.tick - tick
  {
    if tick == r.sim.tick {
    } else {
      assert Resident(r, tick);
      PushAgainChangesNothing(r.sim.history, tick, r.timeline[tick]);
      RerunReaches(step, r, tick + 1);
      assert r.inputs[tick..][1..] == r.inputs[tick + 1..];
    }
  }

  /** The same for a later tick: after a rewind to 0 and one tick with another input,
      rolling forward to 2 brings back the state 2 of the abandoned timeline, where
      the current one goes on from 5 at tick 1. */
  lemma LaterTickIsAbandoned()
    ensures var step := (p: int, i: int) => p + i;
            var ahead := TickAll(step, Sim(0, 0, EmptyHistory<int>(4)), [1, 1, 1]);
            && RollbackTo(ahead, 0).Some?
            && var again := Tick(step, RollbackTo(ahead, 0).value, 5);
               again.tick == 1 && again.physics == 5 && RollbackTo(again, 2) == Some(Sim(2, 2, again.history))
  {
    var step := (p: int, i: int) => p + i;
    var s0 := Sim(0, 0, EmptyHistory<int>(4));
    var s1 := Tick(step, s0, 1);
    var s2 := Tick(step, s1, 1);
    var s3 := Tick(step, s2, 1);
    assert [1, 1, 1][1..] == [1, 1] && [1, 1][1..] == [1] && [1][1..] == [];
    assert TickAll(step, s0, [1, 1, 1]) == s3;
    assert s3.history.ticks == [0, 1, 2, MAX32] && s3.history.snapshots == [Some(0), Some(1), Some(2), None];
  }

  /** The guard does fail in a run. After a rewind the entry at the current tick
      may still be from the abandoned timeline: here tick 1 reads 1, not 5. */
  lemma CurrentTickMayBeStale()
    ensures var step := (p: int, i: int) => p + i;
            var ahead := TickAll(step, Sim(0, 0, EmptyHistory<int>(4)), [1, 1]);
            && RollbackTo(ahead, 0).Some?
            && var again := Tick(step, RollbackTo(ahead, 0).value, 5);
               again.tick == 1 && again.physics == 5 && Get(again.history, 1) == Some(1)
  {
    var step := (p: int, i: int) => p + i;
    var s0 := Sim(0, 0, EmptyHistory<int>(4));
    var s1 := Tick(step, s0, 1);
    var s2 := Tick(step, s1, 1);
    assert [1, 1][1..] == [1] && [1][1..] == [];
    assert TickAll(step, s0, [1, 1]) == s2;
    assert s2.history.ticks == [0, 1, MAX32, MAX32];
    assert s2.history.snapshots == [Some(0), Some(1), None, None];
  }

  // ------------------------------------------------------------ with the world

  /** `rollback_to` restores the physics and the tick, but not the entities of the
      world, which the game logic of a tick may read and change as well. */
  datatype Whole<P, W> = Whole(sim: Sim<P>, world: W)

  type WholeStep<!P, !W, !I> = (P, W, I) -> (P, W)

  function WholeTick<P, W, I>(step: WholeStep<P, W, I>, s: Whole<P, W>, input: I): Whole<P, W>
    requires ValidHistory(s.sim.history)
  {
    var (physics, world) := step(s.sim.physics, s.world, input);
    Whole(Sim(WrapInc32(s.sim.tick), physics, Push(s.sim.history, s.sim.tick, s.sim.physics)), world)
  }

  function WholeTickAll<P, W, I>(step: WholeStep<P, W, I>, s: Whole<P, W>, inputs: seq<I>): (r: Whole<P, W>)
    requires ValidHistory(s.sim.history)
    ensures ValidHistory(r.sim.history)
    decreases |inputs|
  {
    if inputs == [] then s else WholeTickAll(step, WholeTick(step, s, inputs[0]), inputs[1..])
  }

  ghost predicate IgnoresWorld<P(!new), W(!new), I(!new)>(step: WholeStep<P, W, I>) {
    forall p: P, w: W, w': W, i: I :: step(p, w, i).0 == step(p, w', i).0
  }

  function PhysicsOf<P, W, I>(step: WholeStep<P, W, I>, world: W): StepFn<P, I> {
    (p, i) => step(p, world, i).0
  }

  /** If the physics of a tick does not depend on the world, everything above holds
      for it, whatever happens to the world. */
  lemma {:induction false} PhysicsAlone<P(!new), W(!new), I(!new)>(
    step: WholeStep<P, W, I>, s: Whole<P, W>, world: W, inputs: seq<I>)
    requires IgnoresWorld(step) && ValidHistory(s.sim.history)
    ensures WholeTickAll(step, s, inputs).sim == TickAll(PhysicsOf(step, world), s.sim, inputs)
    decreases |inputs|
  {
    if inputs == [] {
    } else {
      var s' := WholeTick(step, s, inputs[0]);
      assert s'.sim == Tick(PhysicsOf(step, world), s.sim, inputs[0]);
      PhysicsAlone(step, s', world, inputs[1..]);
    }
  }

  /** Rerunning from a rolled-back physics with any other world reaches the same
      physics, tick and history. */
  ghost predicate RerunsAlike<P(!new), W(!new), I(!new)>(
    step: WholeStep<P, W, I>, s: Whole<P, W>, world: W, inputs: seq<I>)
    requires ValidHistory(s.sim.history)
  {
    WholeTickAll(step, s, inputs).sim == WholeTickAll(step, s.(world := world), inputs).sim
  }

  ghost predicate AlwaysRerunsAlike<P(!new), W(!new), I(!new)>(step: WholeStep<P, W, I>) {
    forall s: Whole<P, W>, world: W, inputs: seq<I> ::
      ValidHistory(s.sim.history) ==> RerunsAlike(step, s, world, inputs)
  }

  /** That the world is not rolled back is harmless for every state and all inputs if
      and only if the physics of a tick does not depend on it. */
  lemma HarmlessExactly<P(!new), W(!new), I(!new)>(step: WholeStep<P, W, I>)
    ensures AlwaysRerunsAlike(step) <==> IgnoresWorld(step)
  {
    if IgnoresWorld(step) {
      forall s: Whole<P, W>, world: W, inputs: seq<I> | ValidHistory(s.sim.history)
        ensures RerunsAlike(step, s, world, inputs)
      {
        PhysicsAlone(step, s, world, inputs);
        PhysicsAlone(step, s.(world := world), world, inputs);
      }
    }
    if AlwaysRerunsAlike(step) {
      forall p: P, w: W, w': W, i: I ensures step(p, w, i).0 == step(p, w', i).0 {
        OneTickTells(step, p, w, w', i);
      }
    }
  }

  lemma OneTickTells<P(!new), W(!new), I(!new)>(step: WholeStep<P, W, I>, p: P, w: W, w': W, i: I)
    requires AlwaysRerunsAlike(step)
    ensures step(p, w, i).0 == step(p, w', i).0
  {
    var s := Whole(Sim(0, p, EmptyHistory<P>(1)), w);
    assert RerunsAlike(step, s, w', [i]);
    assert WholeTickAll(step, s, [i]) == WholeTick(step, s, i);
    assert WholeTickAll(step, s.(world := w'), [i]) == WholeTick(step, s.(world := w'), i);
  }

  /** If it does, rolling back and rerunning the same inputs may end elsewhere: here
      at 5 and not at 1, because the world is not rolled back. */
  lemma WorldIsNotRolledBack()
    ensures var step := (p: int, w: int, i: int) => (p + w, w + 1);
            var end := WholeTickAll(step, Whole(Sim(0, 0, EmptyHistory<int>(4)), 0), [0, 0]);
            && RollbackTo(end.sim, 0).Some? && end.sim.physics == 1
            && WholeTickAll(step, Whole(RollbackTo(end.sim, 0).value, end.world), [0, 0]).sim.physics == 5
  {
    var step := (p: int, w: int, i: int) => (p + w, w + 1);
    var s0 := Whole(Sim(0, 0, EmptyHistory<int>(4)), 0);
    var s1 := WholeTick(step, s0, 0);
    var s2 := WholeTick(step, s1, 0);
    assert [0, 0][1..] == [0] && [0][1..] == [];
    assert WholeTickAll(step, s0, [0, 0]) == s2;
    assert s2.sim.history.ticks == [0, 1, MAX32, MAX32] && s2.sim.history.snapshots == [Some(0), Some(0), None, None];
    var r0 := Whole(RollbackTo(s2.sim, 0).value, s2.world);
    var r1 := WholeTick(step, r0, 0);
    assert WholeTickAll(step, r0, [0, 0]) == WholeTick(step, r1, 0);
  }

  // -------------------------------------------------------------------- class

  class PhysicsHistory<P> {
    const snapshots: array<Option<P>>
    const ticks: array<u32>

    ghost predicate Valid() { snapshots.Length == ticks.Length > 0 }

    ghost function Value(): (h: History<P>)
      requires Valid()
      reads snapshots, ticks
      ensures ValidHistory(h)
    {
      History(snapshots[..], ticks[..])
    }

    constructor (capacity: nat)
      requires capacity > 0
      ensures Valid() && fresh(snapshots) && fresh(ticks) && Value() == EmptyHistory<P>(capacity)
    {
      snapshots := new Option<P>[capacity](i => None);
      ticks := new u32[capacity](i => MAX32);
    }

    method Put(tick: u32, state: P)
      requires Valid()
      modifies snapshots, ticks
      ensures Value() == Push(old(Value()), tick, state)
    {
      var index := tick % ticks.Length;
      snapshots[index] := Some(state);
      ticks[index] := tick;
    }

    method Read(tick: u32) returns (state: Option<P>)
      requires Valid()
      ensures state == Get(Value(), tick)
    {
      var index := tick % ticks.Length;
      if ticks[index] == tick {
        state := snapshots[index];
      } else {
        state := None;
      }
    }

    /** The resident entry with the greatest tick below the argument. */
    method LatestBefore(tick: u32) returns (best: Option<(u32, P)>)
      requires Valid()
      ensures best.Some? ==>
                best.value.0 < tick &&
                exists i :: 0 <= i < ticks.Length && ticks[i] == best.value.0 && snapshots[i] == Some(best.value.1)
      ensures forall i :: 0 <= i < ticks.Length && ticks[i] < tick && snapshots[i].Some? ==>
                best.Some? && ticks[i] <= best.value.0
    {
      best := None;
      for i := 0 to ticks.Length
        invariant best.Some? ==>
                    best.value.0 < tick &&
                    exists j :: 0 <= j < i && ticks[j] == best.value.0 && snapshots[j] == Some(best.value.1)
        invariant forall j :: 0 <= j < i && ticks[j] < tick && snapshots[j].Some? ==>
                    best.Some? && ticks[j] <= best.value.0
      {
        if ticks[i] < tick && snapshots[i].Some? {
          if best.None? || ticks[i] > best.value.0 {
            best := Some((ticks[i], snapshots[i].value));
          }
        }
      }
    }
  }

  class SimulationState<P> {
    const physicsHistory: PhysicsHistory<P>
    var tick: u32
    var physics: P

    ghost predicate Valid() { physicsHistory.Valid() }

    ghost function Value(): (s: Sim<P>)
      requires Valid()
      reads this, physicsHistory.snapshots, physicsHistory.ticks
      ensures ValidHistory(s.history)
    {
      Sim(tick, physics, physicsHistory.Value())
    }

    constructor (initial: P, capacity: nat)
      requires capacity > 0
      ensures Valid() && Value() == Sim(0, initial, EmptyHistory<P>(capacity))
      ensures fresh(physicsHistory.snapshots) && fresh(physicsHistory.ticks)
    {
      physicsHistory := new PhysicsHistory<P>(capacity);
      tick, physics := 0, initial;
    }

    method StorePhysicsSnapshot()
      requires Valid()
      modifies physicsHistory.snapshots, physicsHistory.ticks
      ensures Value() == old(Value()).(history := Push(old(Value()).history, tick, physics))
    {
      physicsHistory.Put(tick, physics);
    }

    method Rollback(t: u32) returns (found: bool)
      requires Valid()
      modifies this
      ensures match RollbackTo(old(Value()), t)
              case Some(s) => found && Value() == s
              case None => !found && Value() == old(Value())
    {
      var state := physicsHistory.Read(t);
      if state.Some? {
        physics := state.value;
        tick := t;
      }
      return state.Some?;
    }

    /** The body of the fixed-step loop, once per owed tick. */
    method RunTicks<I>(step: StepFn<P, I>, inputs: seq<I>)
      requires Valid()
      modifies this, physicsHistory.snapshots, physicsHistory.ticks
      ensures Value() == TickAll(step, old(Value()), inputs)
    {
      ghost var target := TickAll(step, Value(), inputs);
      var i := 0;
      assert inputs[0..] == inputs;
      while i < |inputs|
        invariant i <= |inputs| && TickAll(step, Value(), inputs[i..]) == target
      {
        assert inputs[i..][1..] == inputs[i + 1..];
        ghost var before := Value();
        StorePhysicsSnapshot();
        physics := step(physics, inputs[i]);
        tick := WrapInc32(tick);
        assert Value() == Tick(step, before, inputs[i]);
        i := i + 1;
      }
    }
  }
}
