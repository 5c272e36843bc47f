/** The bounded queue of game events waiting to be sent. */
module EventQueue {
  import opened Serial

  datatype Mode = Unreliable | Expiring(ttlMs: nat) | Reliable

  datatype GameEvent =
    | ChatMessage | GameStateChange | RoundStart | RoundEnd | ScoreUpdate | PlayerRespawn
    | PlayerKill | PlayerDeath | ItemPickup | ItemDrop
    | DamageDealt | ProjectileFired | ProjectileHit | VoiceData
  {
    function Reliability(): Mode {
      match this
      case ChatMessage | GameStateChange | RoundStart | RoundEnd | ScoreUpdate | PlayerRespawn => Reliable
      case PlayerKill => Expiring(10_000)
      case PlayerDeath | ItemPickup | ItemDrop => Expiring(5_000)
      case DamageDealt | ProjectileFired | ProjectileHit | VoiceData => Unreliable
    }
  }

  /** `index` is history: how many events were pushed before this one. The code
      keeps only `sequence`, its residue. */
  datatype PendingEvent = PendingEvent(
    tick: u32, timestampMs: nat, event: GameEvent, sequence: u32, acked: bool, index: nat)
  {
    predicate IsReliable() { event.Reliability() == Reliable }

    predicate IsExpired(now: nat) {
      match event.Reliability()
      case Expiring(ttl) => now - timestampMs > ttl
      case Unreliable => true
      case Reliable => false
    }
  }

  datatype Queue = Queue(pending: seq<PendingEvent>, pushed: nat, maxPending: nat)

  /** The first event that may be evicted, or the length if there is none. */
  function FirstUnreliable(pending: seq<PendingEvent>): (k: nat)
    ensures k <= |pending|
    ensures forall i :: 0 <= i < k ==> pending[i].IsReliable()
    ensures k < |pending| ==> !pending[k].IsReliable()
  {
    if pending == [] || !pending[0].IsReliable() then 0 else 1 + FirstUnreliable(pending[1..])
  }

  function Evict(pending: seq<PendingEvent>): seq<PendingEvent> {
    var k := FirstUnreliable(pending);
    if k < |pending| then pending[..k] + pending[k + 1..] else pending
  }

  function Pushed(q: Queue, tick: u32, now: nat, event: GameEvent): Queue {
    var room := if |q.pending| >= q.maxPending then Evict(q.pending) else q.pending;
    q.(pending := room + [PendingEvent(tick, now, event, Residue32(q.pushed), false, q.pushed)], pushed := q.pushed + 1)
  }

  function FirstWith(pending: seq<PendingEvent>, sequence: u32): (k: nat)
    ensures k <= |pending|
    ensures forall i :: 0 <= i < k ==> pending[i].sequence != sequence
    ensures k < |pending| ==> pending[k].sequence == sequence
  {
    if pending == [] || pending[0].sequence == sequence then 0 else 1 + FirstWith(pending[1..], sequence)
  }

  predicate IsFirstWith(pending: seq<PendingEvent>, sequence: u32, i: nat)
    requires i < |pending|
  {
    pending[i].sequence == sequence && forall j :: 0 <= j < i ==> pending[j].sequence != sequence
  }

  function Acked(q: Queue, sequence: u32): Queue {
    var k := FirstWith(q.pending, sequence);
    if k < |q.pending| then q.(pending := q.pending[k := q.pending[k].(acked := true)]) else q
  }

  function MarkUpTo(e: PendingEvent, sequence: u32): PendingEvent {
    if SequenceLte(e.sequence, sequence) then e.(acked := true) else e
  }

  function AckedUpTo(q: Queue, sequence: u32): Queue {
    q.(pending := seq(|q.pending|, i requires 0 <= i < |q.pending| => MarkUpTo(q.pending[i], sequence)))
  }

  predicate Stays(e: PendingEvent, now: nat) { !e.acked && !e.IsExpired(now) }

  datatype Filter = Live(now: nat) | OtherTick(tick: u32) | ThisTick(tick: u32) {
    predicate Passes(e: PendingEvent) {
      match this
      case Live(now) => Stays(e, now)
      case OtherTick(tick) => e.tick != tick
      case ThisTick(tick) => e.tick == tick
    }
  }

  function Kept(pending: seq<PendingEvent>, filter: Filter): seq<PendingEvent> {
    if pending == [] then []
    else (if filter.Passes(pending[0]) then [pending[0]] else []) + Kept(pending[1..], filter)
  }

  function Cleaned(q: Queue, now: nat): Queue { q.(pending := Kept(q.pending, Live(now))) }

  function Drained(q: Queue, tick: u32): Queue { q.(pending := Kept(q.pending, OtherTick(tick))) }

  function DrainedEvents(q: Queue, tick: u32): seq<PendingEvent> { Kept(q.pending, ThisTick(tick)) }

  function Payloads(pending: seq<PendingEvent>): seq<GameEvent> {
    seq(|pending|, i requires 0 <= i < |pending| => pending[i].event)
  }

  datatype Op =
    | Push(tick: u32, now: nat, event: GameEvent)
    | Ack(sequence: u32)
    | AckUpTo(sequence: u32)
    | Cleanup(now: nat)
    | Drain(tick: u32)
    | Clear

  function Next(q: Queue, op: Op): Queue {
    match op
    case Push(tick, now, event) => Pushed(q, tick, now, event)
    case Ack(sequence) => Acked(q, sequence)
    case AckUpTo(sequence) => AckedUpTo(q, sequence)
    case Cleanup(now) => Cleaned(q, now)
    case Drain(tick) => Drained(q, tick)
    case Clear => q.(pending := [])
  }

  function Run(maxPending: nat, ops: seq<Op>): Queue {
    if ops == [] then Queue([], 0, maxPending) else Next(Run(maxPending, ops[..|ops| - 1]), ops[|ops| - 1])
  }

  // ------------------------------------------------------------------- expiry

  /** How long an event is worth sending: chat, game state, rounds, scores and
      respawns for ever, kills for ten seconds, deaths and items for five, and damage,
      projectiles and voice not at all. */
  lemma ExpiresExactly(e: PendingEvent, now: nat)
    ensures e.IsExpired(now) <==>
            match e.event
            case ChatMessage | GameStateChange | RoundStart | RoundEnd | ScoreUpdate | PlayerRespawn => false
            case PlayerKill => now > e.timestampMs + 10_000
            case PlayerDeath | ItemPickup | ItemDrop => now > e.timestampMs + 5_000
            case DamageDealt | ProjectileFired | ProjectileHit | VoiceData => true
    ensures e.IsReliable() ==> !e.IsExpired(now)
    ensures e.IsReliable() <==> e.event.ChatMessage? || e.event.GameStateChange? || e.event.RoundStart?
                                || e.event.RoundEnd? || e.event.ScoreUpdate? || e.event.PlayerRespawn?
  {
  }

  // ---------------------------------------------------------------- invariant

  function Unreliables(pending: seq<PendingEvent>): nat {
    if pending == [] then 0 else (if pending[0].IsReliable() then 0 else 1) + Unreliables(pending[1..])
  }

  /** The event was one of the first `pushed`, under its own sequence. */
  predicate WasPushed(e: PendingEvent, pushed: nat) { e.index < pushed && e.sequence == Residue32(e.index) }

  ghost predicate Ordered(pending: seq<PendingEvent>) {
    forall i, j :: 0 <= i < j < |pending| ==> pending[i].index < pending[j].index
  }

  ghost predicate InPushOrder(q: Queue) {
    (forall e :: e in q.pending ==> WasPushed(e, q.pushed)) && Ordered(q.pending)
  }

  ghost predicate Inv(q: Queue) {
    InPushOrder(q) && (|q.pending| <= q.maxPending || Unreliables(q.pending) <= 1)
  }

  lemma {:induction false} UnreliablesSplit(a: seq<PendingEvent>, b: seq<PendingEvent>)
    ensures Unreliables(a + b) == Unreliables(a) + Unreliables(b)
  {
    if a == [] {
      assert a + b == b;
    } else {
      UnreliablesSplit(a[1..], b);
      assert (a + b)[1..] == a[1..] + b;
    }
  }

  lemma {:induction false} NoneUnreliable(pending: seq<PendingEvent>)
    requires forall e :: e in pending ==> e.IsReliable()
    ensures Unreliables(pending) == 0
  {
    if pending == [] {
    } else {
      NoneUnreliable(pending[1..]);
    }
  }

  lemma RemoveUnreliable(front: seq<PendingEvent>, e: PendingEvent, rest: seq<PendingEvent>)
    requires !e.IsReliable()
    ensures Unreliables(front + ([e] + rest)) == Unreliables(front + rest) + 1
  {
    UnreliablesSplit(front, [e] + rest);
    UnreliablesSplit([e], rest);
    UnreliablesSplit(front, rest);
  }

  predicate IsOldestUnreliable(pending: seq<PendingEvent>, k: nat)
    requires k < |pending|
  {
    !pending[k].IsReliable() && forall i :: 0 <= i < k ==> pending[i].IsReliable()
  }

  /** Eviction takes out the oldest event that is not Reliable, if there is one. */
  lemma EvictEffect(pending: seq<PendingEvent>)
    ensures var r := Evict(pending);
            if Unreliables(pending) == 0 then r == pending
            else |r| == |pending| - 1 && Unreliables(r) == Unreliables(pending) - 1
    ensures Unreliables(pending) > 0 ==>
              exists k :: 0 <= k < |pending| && IsOldestUnreliable(pending, k)
                          && Evict(pending) == pending[..k] + pending[k + 1..]
  {
    var k := FirstUnreliable(pending);
    if k < |pending| {
      RemoveUnreliable(pending[..k], pending[k], pending[k + 1..]);
      assert pending == pending[..k] + ([pending[k]] + pending[k + 1..]);
    } else {
      NoneUnreliable(pending);
    }
  }

  lemma EvictKeepsOrder(pending: seq<PendingEvent>)
    requires Ordered(pending)
    ensures Ordered(Evict(pending))
    ensures forall e :: e in Evict(pending) ==> e in pending
  {
    var k := FirstUnreliable(pending);
    if k < |pending| {
      var r := Evict(pending);
      forall i | 0 <= i < |r| ensures r[i] == if i < k then pending[i] else pending[i + 1] {}
    }
  }

  lemma PushKeepsInv(q: Queue, tick: u32, now: nat, event: GameEvent)
    requires Inv(q)
    ensures Inv(Pushed(q, tick, now, event))
  {
    EvictEffect(q.pending);
    EvictKeepsOrder(q.pending);
    var room := if |q.pending| >= q.maxPending then Evict(q.pending) else q.pending;
    AppendKeepsInv(q, room, PendingEvent(tick, now, event, Residue32(q.pushed), false, q.pushed));
  }

  lemma AppendKeepsInv(q: Queue, room: seq<PendingEvent>, e: PendingEvent)
    requires Ordered(room) && (forall x :: x in room ==> WasPushed(x, q.pushed))
    requires |room| < q.maxPending || Unreliables(room) == 0
    requires e.index == q.pushed && WasPushed(e, q.pushed + 1)
    ensures Inv(q.(pending := room + [e], pushed := q.pushed + 1))
  {
    UnreliablesSplit(room, [e]);
    forall x | x in room + [e] ensures WasPushed(x, q.pushed + 1) {
      if x in room { assert WasPushed(x, q.pushed); }
    }
    forall i | 0 <= i < |room| ensures room[i].index < e.index { assert WasPushed(room[i], q.pushed); }
  }

  lemma {:induction false} KeptMembers(pending: seq<PendingEvent>, filter: Filter)
    ensures forall e :: e in Kept(pending, filter) <==> e in pending && filter.Passes(e)
  {
    if pending == [] {
    } else {
      KeptMembers(pending[1..], filter);
      assert pending == [pending[0]] + pending[1..];
    }
  }

  /** Cleaning keeps exactly what is neither acked nor expired. */
  lemma CleanedExactly(q: Queue, now: nat, e: PendingEvent)
    ensures e in Cleaned(q, now).pending <==> e in q.pending && !e.acked && !e.IsExpired(now)
  {
    KeptMembers(q.pending, Live(now));
  }

  /** Draining splits the queue: the tick's events come out, in order, the others stay,
      in order, and no event is lost or doubled. */
  lemma {:induction false} DrainedExactly(pending: seq<PendingEvent>, tick: u32, maxPending: nat, pushed: nat)
    ensures var q := Queue(pending, pushed, maxPending);
            && (forall e :: e in Drained(q, tick).pending <==> e in pending && e.tick != tick)
            && (forall e :: e in DrainedEvents(q, tick) <==> e in pending && e.tick == tick)
            && |Drained(q, tick).pending| + |DrainedEvents(q, tick)| == |pending|
  {
    KeptMembers(pending, OtherTick(tick));
    KeptMembers(pending, ThisTick(tick));
    if pending == [] {
    } else {
      DrainedExactly(pending[1..], tick, maxPending, pushed);
    }
  }

  lemma {:induction false} KeptIsShorter(pending: seq<PendingEvent>, filter: Filter)
    ensures |Kept(pending, filter)| <= |pending|
    ensures Unreliables(Kept(pending, filter)) <= Unreliables(pending)
  {
    if pending == [] {
    } else {
      KeptIsShorter(pending[1..], filter);
      UnreliablesSplit(if filter.Passes(pending[0]) then [pending[0]] else [], Kept(pending[1..], filter));
    }
  }

  lemma {:induction false} KeptIsOrdered(pending: seq<PendingEvent>, filter: Filter)
    requires Ordered(pending)
    ensures Ordered(Kept(pending, filter))
  {
    if pending == [] {
    } else {
      KeptIsOrdered(pending[1..], filter);
      KeptMembers(pending[1..], filter);
      var rest := Kept(pending[1..], filter);
      forall i | 0 <= i < |rest| ensures pending[0].index < rest[i].index {
        assert rest[i] in pending[1..];
      }
    }
  }

  lemma KeepingKeepsInv(q: Queue, filter: Filter)
    requires Inv(q)
    ensures Inv(q.(pending := Kept(q.pending, filter)))
  {
    KeptMembers(q.pending, filter);
    KeptIsShorter(q.pending, filter);
    KeptIsOrdered(q.pending, filter);
  }

  lemma {:induction false} MarkingKeepsCount(before: seq<PendingEvent>, after: seq<PendingEvent>)
    requires |before| == |after| && forall i :: 0 <= i < |before| ==> after[i].event == before[i].event
    ensures Unreliables(after) == Unreliables(before)
  {
    if before == [] {
    } else {
      MarkingKeepsCount(before[1..], after[1..]);
    }
  }

  lemma MarkingKeepsInv(q: Queue, after: seq<PendingEvent>)
    requires Inv(q) && |after| == |q.pending|
    requires forall i :: 0 <= i < |after| ==> after[i] == q.pending[i].(acked := after[i].acked)
    ensures Inv(q.(pending := after))
  {
    MarkingKeepsCount(q.pending, after);
    forall e | e in after ensures WasPushed(e, q.pushed) {
      var i :| 0 <= i < |after| && after[i] == e;
      assert q.pending[i] in q.pending;
    }
  }

  lemma StepKeepsInv(q: Queue, op: Op)
    requires Inv(q)
    ensures Inv(Next(q, op)) && Next(q, op).maxPending == q.maxPending
  {
    match op
    case Push(tick, now, event) => PushKeepsInv(q, tick, now, event);
    case Ack(sequence) => MarkingKeepsInv(q, Acked(q, sequence).pending);
    case AckUpTo(sequence) => MarkingKeepsInv(q, AckedUpTo(q, sequence).pending);
    case Cleanup(now) => KeepingKeepsInv(q, Live(now));
    case Drain(tick) => KeepingKeepsInv(q, OtherTick(tick));
    case Clear =>
  }

  /** Over every sequence of operations pending events stay in push order, and
      the queue exceeds its bound only while at most one event is not Reliable. */
  lemma {:induction false} QueueInvariant(maxPending: nat, ops: seq<Op>)
    ensures Inv(Run(maxPending, ops)) && Run(maxPending, ops).maxPending == maxPending
  {
    if ops == [] {
    } else {
      QueueInvariant(maxPending, ops[..|ops| - 1]);
      StepKeepsInv(Run(maxPending, ops[..|ops| - 1]), ops[|ops| - 1]);
    }
  }

  ghost predicate Holds(q: Queue, index: nat) {
    exists e :: e in q.pending && e.index == index
  }

  /** Exactly how a Reliable event leaves: by cleanup once acked, by being
      drained for its tick, or when the queue is cleared. */
  lemma ReliableLeaves(maxPending: nat, ops: seq<Op>, op: Op, e: PendingEvent)
    requires e in Run(maxPending, ops).pending && e.IsReliable()
    ensures !Holds(Next(Run(maxPending, ops), op), e.index) <==>
            (op.Cleanup? && e.acked) || (op.Drain? && op.tick == e.tick) || op.Clear?
  {
    var q := Run(maxPending, ops);
    QueueInvariant(maxPending, ops);
    match op
    case Push(tick, now, event) => PushKeepsReliable(q, tick, now, event, e);
    case Ack(sequence) => MarkingHolds(q, Acked(q, sequence).pending, e);
    case AckUpTo(sequence) => MarkingHolds(q, AckedUpTo(q, sequence).pending, e);
    case Cleanup(now) => LeavesIfDropped(q, e, Live(now));
    case Drain(tick) => LeavesIfDropped(q, e, OtherTick(tick));
    case Clear =>
  }

  lemma PushKeepsReliable(q: Queue, tick: u32, now: nat, event: GameEvent, e: PendingEvent)
    requires e in q.pending && e.IsReliable()
    ensures e in Pushed(q, tick, now, event).pending
  {
    var k := FirstUnreliable(q.pending);
    if k < |q.pending| {
      var i :| 0 <= i < |q.pending| && q.pending[i] == e;
      assert Evict(q.pending)[if i < k then i else i - 1] == e;
    }
  }

  lemma MarkingHolds(q: Queue, after: seq<PendingEvent>, e: PendingEvent)
    requires e in q.pending && |after| == |q.pending|
    requires forall i :: 0 <= i < |after| ==> after[i] == q.pending[i].(acked := after[i].acked)
    ensures Holds(q.(pending := after), e.index)
  {
    var i :| 0 <= i < |q.pending| && q.pending[i] == e;
    assert after[i] in after && after[i].index == e.index;
  }

  lemma LeavesIfDropped(q: Queue, e: PendingEvent, filter: Filter)
    requires Inv(q) && e in q.pending
    ensures Holds(q.(pending := Kept(q.pending, filter)), e.index) <==> filter.Passes(e)
  {
    KeptMembers(q.pending, filter);
    forall x | x in q.pending && x.index == e.index ensures x == e {
      var i :| 0 <= i < |q.pending| && q.pending[i] == x;
      var j :| 0 <= j < |q.pending| && q.pending[j] == e;
    }
  }

  /** Within half the range `ack_up_to` marks exactly the events pushed no later
      than the acked one. */
  lemma AckUpToExactly(maxPending: nat, ops: seq<Op>, acked: nat, i: nat)
    requires var q := Run(maxPending, ops);
             i < |q.pending| && -HALF32 - 2 <= acked - q.pending[i].index < HALF32
    ensures var q := Run(maxPending, ops);
            AckedUpTo(q, Residue32(acked)).pending[i].acked <==> q.pending[i].acked || q.pending[i].index <= acked
  {
    QueueInvariant(maxPending, ops);
    var e := Run(maxPending, ops).pending[i];
    assert WasPushed(e, Run(maxPending, ops).pushed);
    if e.index <= acked { AheadOfResidue32(acked, e.index); } else { BehindResidue32(acked, e.index); }
  }

  lemma BehindResidue32(m: nat, n: nat)
    requires m < n < m + POW32
    ensures Ahead32(Residue32(m), Residue32(n)) == POW32 - (n - m)
  {
    AheadOfResidue32(n, m);
  }

  /** Half way through draining `all`: `left` stayed, `events` were taken and
      `rest` has not been looked at. */
  ghost predicate DrainedSoFar(
    all: seq<PendingEvent>, left: seq<PendingEvent>, rest: seq<PendingEvent>, events: seq<PendingEvent>, tick: u32)
  {
    && left + Kept(rest, OtherTick(tick)) == Kept(all, OtherTick(tick))
    && events + Kept(rest, ThisTick(tick)) == Kept(all, ThisTick(tick))
  }

  lemma DrainStep(
    all: seq<PendingEvent>, left: seq<PendingEvent>, rest: seq<PendingEvent>, events: seq<PendingEvent>, tick: u32)
    requires DrainedSoFar(all, left, rest, events, tick) && rest != []
    ensures if rest[0].tick == tick then DrainedSoFar(all, left, rest[1..], events + [rest[0]], tick)
            else DrainedSoFar(all, left + [rest[0]], rest[1..], events, tick)
  {
    assert Kept(rest, OtherTick(tick))
        == (if rest[0].tick != tick then [rest[0]] else []) + Kept(rest[1..], OtherTick(tick));
    assert Kept(rest, ThisTick(tick))
        == (if rest[0].tick == tick then [rest[0]] else []) + Kept(rest[1..], ThisTick(tick));
  }

  lemma RemoveAt(left: seq<PendingEvent>, rest: seq<PendingEvent>)
    requires rest != []
    ensures (left + rest)[..|left|] + (left + rest)[|left| + 1..] == left + rest[1..]
    ensures left + rest == left + [rest[0]] + rest[1..]
  {
  }

  // -------------------------------------------------------------------- class

  class EventBuffer {
    var pending: seq<PendingEvent>
    var nextSequence: u32
    const maxPending: nat
    var pushed: nat   // history, as in `PendingEvent.index`

    ghost predicate Valid()
      reads this
    {
      nextSequence == Residue32(pushed)
    }

    ghost function Value(): Queue
      reads this
    {
      Queue(pending, pushed, maxPending)
    }

    constructor (maxPending: nat)
      ensures Valid() && Value() == Queue([], 0, maxPending)
    {
      pending, nextSequence, pushed := [], 0, 0;
      this.maxPending := maxPending;
    }

    method PushEvent(tick: u32, now: nat, event: GameEvent) returns (sequence: u32)
      requires Valid()
      modifies this
      ensures Valid() && Value() == Pushed(old(Value()), tick, now, event)
      ensures sequence == old(nextSequence) && nextSequence == (sequence + 1) % POW32
      ensures pending != []
      ensures pending[|pending| - 1] == PendingEvent(tick, now, event, sequence, false, old(pushed))
      ensures pending[..|pending| - 1] == if |old(pending)| < maxPending then old(pending) else Evict(old(pending))
    {
      sequence := nextSequence;
      nextSequence := WrapInc32(nextSequence);
      if |pending| >= maxPending {
        EvictOldestUnreliable();
      }
      pending := pending + [PendingEvent(tick, now, event, sequence, false, pushed)];
      pushed := pushed + 1;
    }

    method EvictOldestUnreliable()
      modifies `pending
      ensures pending == Evict(old(pending))
    {
      var i := 0;
      while i < |pending| && pending[i].IsReliable()
        invariant i <= FirstUnreliable(pending)
      {
        i := i + 1;
      }
      if i < |pending| {
        pending := pending[..i] + pending[i + 1..];
      }
    }

    method AckOne(sequence: u32)
      modifies `pending
      ensures Value() == Acked(old(Value()), sequence)
      ensures |pending| == |old(pending)|
      ensures forall i :: 0 <= i < |pending| ==>
                pending[i] == if IsFirstWith(old(pending), sequence, i) then old(pending)[i].(acked := true)
                              else old(pending)[i]
    {
      var i := 0;
      while i < |pending| && pending[i].sequence != sequence
        invariant i <= FirstWith(pending, sequence)
      {
        i := i + 1;
      }
      if i < |pending| {
        pending := pending[i := pending[i].(acked := true)];
      }
    }

    method AckAllUpTo(sequence: u32)
      modifies `pending
      ensures Value() == AckedUpTo(old(Value()), sequence)
    {
      for i := 0 to |pending|
        invariant |pending| == |old(pending)|
        invariant forall j :: 0 <= j < i ==> pending[j] == MarkUpTo(old(pending)[j], sequence)
        invariant forall j :: i <= j < |pending| ==> pending[j] == old(pending)[j]
      {
        if SequenceLte(pending[i].sequence, sequence) {
          pending := pending[i := pending[i].(acked := true)];
        }
      }
      assert pending == AckedUpTo(old(Value()), sequence).pending;
    }

    method Clean(now: nat)
      modifies `pending
      ensures Value() == Cleaned(old(Value()), now)
    {
      var all, kept := pending, [];
      assert all[0..] == all;
      for i := 0 to |all|
        invariant kept + Kept(all[i..], Live(now)) == Kept(all, Live(now))
      {
        assert all[i..][1..] == all[i + 1..];
        if !all[i].acked && !all[i].IsExpired(now) {
          kept := kept + [all[i]];
        }
      }
      pending := kept;
    }

    /** Removes the events of one tick and returns them in order. */
    method DrainEventsForTick(tick: u32) returns (events: seq<GameEvent>)
      modifies `pending
      ensures Value() == Drained(old(Value()), tick)
      ensures events == Payloads(DrainedEvents(old(Value()), tick))
    {
      events := [];
      var i := 0;
      ghost var all := pending;
      ghost var left, taken, rest := [], [], all;   // stayed, drained, not looked at yet
      while i < |pending|
        invariant i == |left| && pending == left + rest
        invariant DrainedSoFar(all, left, rest, taken, tick) && events == Payloads(taken)
        decreases |rest|
      {
        DrainStep(all, left, rest, taken, tick);
        assert pending[i] == rest[0];
        if pending[i].tick == tick {
          events, taken := events + [pending[i].event], taken + [rest[0]];
          RemoveAt(left, rest);
          pending := pending[..i] + pending[i + 1..];
        } else {
          left, i := left + [rest[0]], i + 1;
        }
        rest := rest[1..];
      }
    }

    method ClearAll()
      modifies `pending
      ensures Value() == old(Value()).(pending := [])
    {
      pending := [];
    }
  }
}
