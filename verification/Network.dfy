/** Two endpoints and the packets in flight between them.

    The network may lose a packet, hand it over any number of times, and in any
    order: receiving leaves the packet in flight and `Lose` takes it away. A run
    is any interleaving of sends, resends, receipts and losses. What a party
    remembers beyond its `Endpoint` is history, which the code does not store. */
module Network {
  import opened Serial
  import opened Tracking
  import opened Protocol
  import opened Connection

  /** A packet in flight, with the unbounded index of its message on its channel. */
  datatype Flight = Flight(packet: Packet, index: nat)

  /** What one side sent on a channel, and the wire sequence each message first used. */
  datatype Outbox = Outbox(messages: seq<PacketType>, original: seq<nat>)

  datatype Handed = Handed(seqNo: u16, payload: PacketType)

  /** What one wire sequence was used for. */
  datatype Sending = Sending(reliability: Reliability, payload: PacketType)

  /** A payload handed over outside the queued channels, and which arrival it was. */
  datatype Plain = Plain(at: nat, payload: PacketType)

  datatype Party = Party(
    end: Endpoint,
    reliable: Outbox,
    ordered: Outbox,
    latest: map<u16, nat>,         // index of the newest ordered message under each channel sequence
    wires: seq<Slot>,              // what each wire sequence carried
    sendings: seq<Sending>,        // and what it was asked to carry
    arrivals: seq<u32>,            // wire sequences taken as new, in order
    recorded: set<u32>,            // wire sequences that arrived
    reported: seq<u32>,            // wire sequences reported by `process_ack`
    handedReliable: seq<Handed>,   // handed to the application, per channel
    handedOrdered: seq<PacketType>,
    handedPlain: seq<Plain>)

  function FreshParty(repaired: bool): Party {
    Party(FreshEndpoint(repaired), Outbox([], []), Outbox([], []), map[], [], [], [], {}, [], [], [], [])
  }

  function Box(p: Party, channel: u8): Outbox {
    if channel == CHANNEL_RELIABLE then p.reliable else p.ordered
  }

  function PendingOf(e: Endpoint, channel: u8): map<u16, Pending> {
    if channel == CHANNEL_RELIABLE then e.pendingReliable else e.pendingOrdered
  }

  predicate IsQueued(channel: u8) {
    channel == CHANNEL_RELIABLE || channel == CHANNEL_ORDERED
  }

  function SlotOf(packet: Packet): Slot {
    Slot(packet.header.channel, packet.header.channelSeq)
  }

  function AppendMessage(box: Outbox, payload: PacketType, wire: nat): Outbox {
    Outbox(box.messages + [payload], box.original + [wire])
  }

  function PartySend(p: Party, payload: PacketType, reliability: Reliability, now: nat): (Party, Flight) {
    var (e, packet) := Send(p.end, payload, reliability, now);
    var wires, sendings := p.wires + [SlotOf(packet)], p.sendings + [Sending(reliability, payload)];
    match reliability
    case Unreliable => (p.(end := e, wires := wires, sendings := sendings), Flight(packet, 0))
    case Reliable =>
      (p.(end := e, wires := wires, sendings := sendings,
          reliable := AppendMessage(p.reliable, payload, |p.wires|)),
       Flight(packet, |p.reliable.messages|))
    case Ordered =>
      (p.(end := e, wires := wires, sendings := sendings,
          ordered := AppendMessage(p.ordered, payload, |p.wires|),
          latest := p.latest[packet.header.channelSeq := |p.ordered.messages|]),
       Flight(packet, |p.ordered.messages|))
  }

  function PartyResend(p: Party, channel: u8, c: u16, now: nat): (Party, Flight)
    requires IsQueued(channel) && c in PendingOf(p.end, channel)
  {
    var (e, packet) :=
      if channel == CHANNEL_RELIABLE then ResendReliable(p.end, c, now) else ResendOrdered(p.end, c, now);
    var again :=
      Sending(if channel == CHANNEL_RELIABLE then Reliable else Ordered, PendingOf(p.end, channel)[c].payload);
    (p.(end := e, wires := p.wires + [SlotOf(packet)], sendings := p.sendings + [again]),
     Flight(packet, if channel == CHANNEL_ORDERED && c in p.latest then p.latest[c] else 0))
  }

  function PartyReceive(p: Party, packet: Packet): Party {
    var (e, out) := Process(p.end, packet);
    var h := packet.header;
    p.(end := e,
       recorded := p.recorded + {h.sequence},
       reported := p.reported + Reported(p.end.tracked, h.ack, h.ackBitfield),
       arrivals := p.arrivals + (if h.sequence in p.end.receiver.recent then [] else [h.sequence]),
       handedReliable := p.handedReliable +
         (if h.channel == CHANNEL_RELIABLE then AllHanded(h.channelSeq, out) else []),
       handedOrdered := p.handedOrdered + (if h.channel == CHANNEL_ORDERED then out else []),
       handedPlain := p.handedPlain +
         (if h.channel == CHANNEL_RELIABLE || h.channel == CHANNEL_ORDERED then [] else AllPlain(|p.arrivals|, out)))
  }

  function AllHanded(seqNo: u16, out: seq<PacketType>): seq<Handed> {
    seq(|out|, i requires 0 <= i < |out| => Handed(seqNo, out[i]))
  }

  function AllPlain(at: nat, out: seq<PacketType>): seq<Plain> {
    seq(|out|, i requires 0 <= i < |out| => Plain(at, out[i]))
  }

  // ------------------------------------------------------------------- system

  datatype Side = A | B

  datatype System = System(a: Party, b: Party, toA: set<Flight>, toB: set<Flight>) {
    function Self(side: Side): Party { if side == A then a else b }

    function Peer(side: Side): Party { if side == A then b else a }

    function Inbox(side: Side): set<Flight> { if side == A then toA else toB }

    function Outgoing(side: Side): set<Flight> { if side == A then toB else toA }

    function With(side: Side, p: Party): System { if side == A then this.(a := p) else this.(b := p) }

    function Emit(side: Side, r: (Party, Flight)): System {
      if side == A then this.(a := r.0, toB := toB + {r.1}) else this.(b := r.0, toA := toA + {r.1})
    }

    function Drop(side: Side, f: Flight): System {
      if side == A then this.(toA := toA - {f}) else this.(toB := toB - {f})
    }
  }

  datatype Step =
    | DoSend(side: Side, payload: PacketType, reliability: Reliability, now: nat)
    | DoResend(side: Side, channel: u8, seqNo: u16, now: nat)
    | DoReceive(side: Side, flight: Flight)
    | DoLose(side: Side, flight: Flight)

  function Start(repaired: bool): System {
    System(FreshParty(repaired), FreshParty(repaired), {}, {})
  }

  predicate Enabled(s: System, step: Step) {
    match step
    case DoSend(_, _, _, _) => true
    case DoResend(side, channel, c, _) => IsQueued(channel) && c in PendingOf(s.Self(side).end, channel)
    case DoReceive(side, f) => f in s.Inbox(side)
    case DoLose(_, _) => true
  }

  function Next(s: System, step: Step): System
    requires Enabled(s, step)
  {
    match step
    case DoSend(side, payload, reliability, now) => s.Emit(side, PartySend(s.Self(side), payload, reliability, now))
    case DoResend(side, channel, c, now) => s.Emit(side, PartyResend(s.Self(side), channel, c, now))
    case DoReceive(side, f) => s.With(side, PartyReceive(s.Self(side), f.packet))
    case DoLose(side, f) => s.Drop(side, f)
  }

  ghost predicate IsRun(states: seq<System>, steps: seq<Step>, repaired: bool) {
    && |states| == |steps| + 1
    && states[0] == Start(repaired)
    && forall i :: 0 <= i < |steps| ==> Enabled(states[i], steps[i]) && states[i + 1] == Next(states[i], steps[i])
  }

  /** Before any wire sequence or channel sequence is used a second time. */
  predicate NoWrap(p: Party) {
    |p.wires| <= MAX32 && |p.reliable.messages| <= POW16 && |p.ordered.messages| <= POW16
  }

  lemma NoWrapEarlier(s: System, step: Step, side: Side)
    requires Enabled(s, step) && NoWrap(Next(s, step).Self(side))
    ensures NoWrap(s.Self(side))
  {
  }

  lemma {:induction false} MessagesOnlyGrow(states: seq<System>, steps: seq<Step>, repaired: bool, i: nat, side: Side)
    requires IsRun(states, steps, repaired) && i <= |steps|
    ensures |states[i].Self(side).ordered.messages| <= |states[|steps|].Self(side).ordered.messages|
    decreases |steps| - i
  {
    if i == |steps| {
    } else {
      MessagesOnlyGrow(states, steps, repaired, i + 1, side);
      StepOnlyGrows(states[i], steps[i], side);
    }
  }

  lemma StepOnlyGrows(s: System, step: Step, side: Side)
    requires Enabled(s, step)
    ensures |s.Self(side).ordered.messages| <= |Next(s, step).Self(side).ordered.messages|
  {
  }
}
