/** One end of a connection: reliable and ordered channels over lossy UDP.

    `Endpoint` is the state as a value and the functions below say what each
    operation does to it; `ClientConnection` is the object that does it. */
module Connection {
  import opened Serial
  import opened Tracking
  import opened Protocol

  const RELIABLE_HISTORY_SIZE: nat := 256

  datatype Reliability = Unreliable | Reliable | Ordered

  /** Channel and channel sequence carried by one wire sequence. */
  datatype Slot = Slot(channel: u8, seqNo: u16)

  datatype Pending = Pending(payload: PacketType, lastSend: nat)

  datatype Endpoint = Endpoint(
    sendSequence: u32,
    tracked: seq<Tracked>,
    nextReliableSeq: u16,
    nextOrderedSeq: u16,
    inflight: map<u32, Slot>,
    pendingReliable: map<u16, Pending>,
    pendingOrdered: map<u16, Pending>,
    receiver: Receiver,
    reliableHistory: seq<u16>,
    nextExpectedOrdered: u16,
    orderedBuffer: map<u16, PacketType>)

  function FreshEndpoint(repaired: bool): Endpoint {
    Endpoint(0, [], 0, 0, map[], map[], map[], FreshReceiver(repaired), [], 0, map[])
  }

  function Header(e: Endpoint, slot: Slot): PacketHeader {
    PacketHeader(e.sendSequence, e.receiver.last, e.receiver.bits, slot.channel, slot.seqNo)
  }

  function NextSlot(e: Endpoint, reliability: Reliability): Slot {
    match reliability
    case Unreliable => Slot(CHANNEL_UNRELIABLE, 0)
    case Reliable => Slot(CHANNEL_RELIABLE, e.nextReliableSeq)
    case Ordered => Slot(CHANNEL_ORDERED, e.nextOrderedSeq)
  }

  function Send(e: Endpoint, payload: PacketType, reliability: Reliability, now: nat): (Endpoint, Packet) {
    var slot := NextSlot(e, reliability);
    var wire := e.(sendSequence := WrapInc32(e.sendSequence), tracked := Track(e.tracked, e.sendSequence));
    var sent := match reliability
      case Unreliable => wire
      case Reliable => wire.(nextReliableSeq := WrapInc16(e.nextReliableSeq),
                             pendingReliable := e.pendingReliable[slot.seqNo := Pending(payload, now)],
                             inflight := e.inflight[e.sendSequence := slot])
      case Ordered => wire.(nextOrderedSeq := WrapInc16(e.nextOrderedSeq),
                            pendingOrdered := e.pendingOrdered[slot.seqNo := Pending(payload, now)],
                            inflight := e.inflight[e.sendSequence := slot]);
    (sent, Packet(Header(e, slot), payload))
  }

  /** A resend takes a fresh wire sequence, which the ack tracker never sees. */
  function ResendReliable(e: Endpoint, c: u16, now: nat): (Endpoint, Packet)
    requires c in e.pendingReliable
  {
    var slot := Slot(CHANNEL_RELIABLE, c);
    (e.(sendSequence := WrapInc32(e.sendSequence),
        pendingReliable := e.pendingReliable[c := e.pendingReliable[c].(lastSend := now)],
        inflight := e.inflight[e.sendSequence := slot]),
     Packet(Header(e, slot), e.pendingReliable[c].payload))
  }

  function ResendOrdered(e: Endpoint, c: u16, now: nat): (Endpoint, Packet)
    requires c in e.pendingOrdered
  {
    var slot := Slot(CHANNEL_ORDERED, c);
    (e.(sendSequence := WrapInc32(e.sendSequence),
        pendingOrdered := e.pendingOrdered[c := e.pendingOrdered[c].(lastSend := now)],
        inflight := e.inflight[e.sendSequence := slot]),
     Packet(Header(e, slot), e.pendingOrdered[c].payload))
  }

  /** Releases one acked wire sequence. */
  function Release(e: Endpoint, wire: u32): Endpoint {
    if wire !in e.inflight then e else
    var slot := e.inflight[wire];
    var e' := e.(inflight := e.inflight - {wire});
    if slot.channel == CHANNEL_RELIABLE then e'.(pendingReliable := e'.pendingReliable - {slot.seqNo})
    else if slot.channel == CHANNEL_ORDERED then e'.(pendingOrdered := e'.pendingOrdered - {slot.seqNo})
    else e'
  }

  function ReleaseAll(e: Endpoint, wires: seq<u32>): Endpoint {
    if wires == [] then e
    else Release(ReleaseAll(e, wires[..|wires| - 1]), wires[|wires| - 1])
  }

  function ApplyAcks(e: Endpoint, ack: u32, bits: Word32): Endpoint {
    var e' := e.(tracked := DropAcked(Marked(e.tracked, ack, bits)));
    ReleaseAll(e', Reported(e.tracked, ack, bits))
  }

  datatype Drained = Drained(next: u16, buffer: map<u16, PacketType>, payloads: seq<PacketType>)

  /** Hands over buffered packets as long as the next one is there. */
  function Drain(next: u16, buffer: map<u16, PacketType>): Drained
    decreases buffer.Keys
  {
    if next !in buffer then Drained(next, buffer, [])
    else
      var rest := Drain(WrapInc16(next), buffer - {next});
      rest.(payloads := [buffer[next]] + rest.payloads)
  }

  /** What the reorder buffer does with one arrival on the ordered channel. */
  function AcceptOrdered(next: u16, buffer: map<u16, PacketType>, c: u16, payload: PacketType): Drained {
    if c == next then
      var d := Drain(WrapInc16(next), buffer);
      d.(payloads := [payload] + d.payloads)
    else if SequenceGreaterThan16(c, next) then Drained(next, buffer[c := payload], [])
    else Drained(next, buffer, [])
  }

  function Deliver(e: Endpoint, slot: Slot, payload: PacketType): (Endpoint, seq<PacketType>) {
    if slot.channel == CHANNEL_UNRELIABLE then (e, [payload])
    else if slot.channel == CHANNEL_RELIABLE then
      if slot.seqNo in e.reliableHistory then (e, [])
      else (e.(reliableHistory := PushBounded(e.reliableHistory, slot.seqNo, RELIABLE_HISTORY_SIZE)), [payload])
    else if slot.channel == CHANNEL_ORDERED then
      var d := AcceptOrdered(e.nextExpectedOrdered, e.orderedBuffer, slot.seqNo, payload);
      (e.(nextExpectedOrdered := d.next, orderedBuffer := d.buffer), d.payloads)
    else (e, [])
  }

  function Process(e: Endpoint, packet: Packet): (Endpoint, seq<PacketType>) {
    var h := packet.header;
    var acked := ApplyAcks(e, h.ack, h.ackBitfield);
    if h.sequence in acked.receiver.recent then (acked, [])
    else Deliver(acked.(receiver := Record(acked.receiver, h.sequence)), Slot(h.channel, h.channelSeq), packet.payload)
  }

  /** All resends of one `collect_resends`, in the order they are made. */
  function ResendReliables(e: Endpoint, due: seq<u16>, now: nat): (r: (Endpoint, seq<Packet>))
    requires forall c :: c in due ==> c in e.pendingReliable
    ensures r.0.pendingReliable.Keys == e.pendingReliable.Keys && r.0.pendingOrdered == e.pendingOrdered
  {
    if due == [] then (e, [])
    else
      var before := ResendReliables(e, due[..|due| - 1], now);
      var last := ResendReliable(before.0, due[|due| - 1], now);
      (last.0, before.1 + [last.1])
  }

  function ResendOrdereds(e: Endpoint, due: seq<u16>, now: nat): (r: (Endpoint, seq<Packet>))
    requires forall c :: c in due ==> c in e.pendingOrdered
    ensures r.0.pendingOrdered.Keys == e.pendingOrdered.Keys
  {
    if due == [] then (e, [])
    else
      var before := ResendOrdereds(e, due[..|due| - 1], now);
      var last := ResendOrdered(before.0, due[|due| - 1], now);
      (last.0, before.1 + [last.1])
  }

  function Later(first: u32, n: nat): u32 { (first + n) % POW32 }

  predicate ResentAs(packet: Packet, c: u16, wire: u32, channel: u8, t: Receiver, before: map<u16, Pending>) {
    c in before && packet == Packet(PacketHeader(wire, t.last, t.bits, channel, c), before[c].payload)
  }

  /** Packet `i` carries message `due[i]` under the `i`-th fresh wire sequence, with the
      current acks. */
  ghost predicate PacketsEach(packets: seq<Packet>, due: seq<u16>, first: u32, channel: u8, t: Receiver,
                              before: map<u16, Pending>) {
    && |packets| == |due|
    && forall i :: 0 <= i < |due| ==> ResentAs(packets[i], due[i], Later(first, i), channel, t, before)
  }

  /** The messages in `due` were last sent now, and nothing else has changed. */
  ghost predicate TimesEach(before: map<u16, Pending>, after: map<u16, Pending>, due: seq<u16>, now: nat) {
    && after.Keys == before.Keys
    && forall c :: c in before ==> after[c] == if c in due then Pending(before[c].payload, now) else before[c]
  }

  lemma PacketsAppend(packets: seq<Packet>, due: seq<u16>, first: u32, channel: u8, t: Receiver,
                      before: map<u16, Pending>, packet: Packet, c: u16)
    requires PacketsEach(packets, due, first, channel, t, before)
    requires ResentAs(packet, c, Later(first, |due|), channel, t, before)
    ensures PacketsEach(packets + [packet], due + [c], first, channel, t, before)
  {
  }

  lemma TimesAppend(before: map<u16, Pending>, after: map<u16, Pending>, due: seq<u16>, now: nat, c: u16)
    requires TimesEach(before, after, due, now) && c in after
    ensures TimesEach(before, after[c := after[c].(lastSend := now)], due + [c], now)
    ensures after[c].payload == before[c].payload
  {
  }

  lemma LaterNext(first: u32, n: nat)
    ensures WrapInc32(Later(first, n)) == Later(first, n + 1)
  {
    IncResidue32(first + n);
  }

  lemma {:induction false} ResendReliablesEach(e: Endpoint, due: seq<u16>, now: nat)
    requires forall c :: c in due ==> c in e.pendingReliable
    ensures var (e', packets) := ResendReliables(e, due, now);
            && e'.sendSequence == Later(e.sendSequence, |due|) && e'.receiver == e.receiver
            && PacketsEach(packets, due, e.sendSequence, CHANNEL_RELIABLE, e.receiver, e.pendingReliable)
            && TimesEach(e.pendingReliable, e'.pendingReliable, due, now)
  {
    if due == [] {
    } else {
      var front, c := due[..|due| - 1], due[|due| - 1];
      var (mid, packets) := ResendReliables(e, front, now);
      ResendReliablesEach(e, front, now);
      assert due == front + [c];
      LaterNext(e.sendSequence, |front|);
      TimesAppend(e.pendingReliable, mid.pendingReliable, front, now, c);
      PacketsAppend(packets, front, e.sendSequence, CHANNEL_RELIABLE, e.receiver, e.pendingReliable,
                    ResendReliable(mid, c, now).1, c);
    }
  }

  lemma {:induction false} ResendOrderedsEach(e: Endpoint, due: seq<u16>, now: nat)
    requires forall c :: c in due ==> c in e.pendingOrdered
    ensures var (e', packets) := ResendOrdereds(e, due, now);
            && e'.sendSequence == Later(e.sendSequence, |due|) && e'.receiver == e.receiver
            && e'.pendingReliable == e.pendingReliable
            && PacketsEach(packets, due, e.sendSequence, CHANNEL_ORDERED, e.receiver, e.pendingOrdered)
            && TimesEach(e.pendingOrdered, e'.pendingOrdered, due, now)
  {
    if due == [] {
    } else {
      var front, c := due[..|due| - 1], due[|due| - 1];
      var (mid, packets) := ResendOrdereds(e, front, now);
      ResendOrderedsEach(e, front, now);
      assert due == front + [c];
      LaterNext(e.sendSequence, |front|);
      TimesAppend(e.pendingOrdered, mid.pendingOrdered, front, now, c);
      PacketsAppend(packets, front, e.sendSequence, CHANNEL_ORDERED, e.receiver, e.pendingOrdered,
                    ResendOrdered(mid, c, now).1, c);
    }
  }

  predicate Overdue(p: Pending, now: nat, timeout: nat) {
    now - p.lastSend > timeout
  }

  /** `due` lists each overdue channel sequence once. */
  ghost predicate ListsOverdue(due: seq<u16>, pending: map<u16, Pending>, now: nat, timeout: nat) {
    && (forall i, j :: 0 <= i < j < |due| ==> due[i] != due[j])
    && (forall c :: c in due <==> c in pending && Overdue(pending[c], now, timeout))
  }

  /** What a packet that is new on the wire hands over: on the unreliable channel
      itself, on the reliable one itself unless it is remembered, on the ordered one a
      run that starts with it if it is the next, and on any other channel nothing. */
  predicate HandsOver(slot: Slot, payload: PacketType, history: seq<u16>, next: u16, delivered: seq<PacketType>) {
    && (slot.channel == CHANNEL_UNRELIABLE ==> delivered == [payload])
    && (slot.channel == CHANNEL_RELIABLE ==> delivered == if slot.seqNo in history then [] else [payload])
    && (slot.channel == CHANNEL_ORDERED ==>
          if slot.seqNo == next then delivered != [] && delivered[0] == payload else delivered == [])
    && (slot.channel > CHANNEL_ORDERED ==> delivered == [])
  }

  // -------------------------------------------------------------------- class

  lemma ReleaseAllStep(e: Endpoint, wires: seq<u32>, i: nat)
    requires i < |wires|
    ensures ReleaseAll(e, wires[..i + 1]) == Release(ReleaseAll(e, wires[..i]), wires[i])
  {
    assert wires[..i + 1][..i] == wires[..i];
  }

  class ClientConnection {
    const ackTracker: AckTracker
    const receiveTracker: ReceiveTracker
    var sendSequence: u32
    var nextReliableSeq: u16
    var nextOrderedSeq: u16
    var inflightPackets: map<u32, Slot>
    var pendingReliable: map<u16, Pending>
    var pendingOrdered: map<u16, Pending>
    var receivedReliableHistory: seq<u16>
    var nextExpectedOrdered: u16
    var orderedBuffer: map<u16, PacketType>

    ghost predicate Valid()
      reads this, ackTracker
    {
      |ackTracker.pending| <= MAX_TRACKED
    }

    ghost function Value(): Endpoint
      reads this, ackTracker, receiveTracker
    {
      Endpoint(sendSequence, ackTracker.pending, nextReliableSeq, nextOrderedSeq, inflightPackets,
               pendingReliable, pendingOrdered, receiveTracker.Value(), receivedReliableHistory,
               nextExpectedOrdered, orderedBuffer)
    }

    constructor ()
      ensures Valid() && Value() == FreshEndpoint(false)
      ensures sendSequence == 0 && nextReliableSeq == nextOrderedSeq == nextExpectedOrdered == 0
      ensures pendingReliable == pendingOrdered == map[] && inflightPackets == map[] && orderedBuffer == map[]
      ensures receivedReliableHistory == []
      ensures fresh(ackTracker) && fresh(receiveTracker)
    {
      ackTracker := new AckTracker();
      receiveTracker := new ReceiveTracker();
      sendSequence, nextReliableSeq, nextOrderedSeq := 0, 0, 0;
      inflightPackets, pendingReliable, pendingOrdered := map[], map[], map[];
      receivedReliableHistory, nextExpectedOrdered, orderedBuffer := [], 0, map[];
    }

    method SendPacket(payload: PacketType, reliability: Reliability, now: nat) returns (packet: Packet)
      requires Valid()
      modifies this, ackTracker
      ensures Valid()
      ensures (Value(), packet) == Send(old(Value()), payload, reliability, now)
      ensures packet.payload == payload && packet.header.sequence == old(sendSequence)
      ensures packet.header.ack == receiveTracker.lastReceived
      ensures packet.header.ackBitfield == receiveTracker.receivedBitfield
      ensures match reliability
              case Unreliable =>
                && packet.header.channel == CHANNEL_UNRELIABLE && inflightPackets == old(inflightPackets)
                && pendingReliable == old(pendingReliable) && pendingOrdered == old(pendingOrdered)
              case Reliable =>
                && packet.header.channel == CHANNEL_RELIABLE && packet.header.channelSeq == old(nextReliableSeq)
                && pendingReliable == old(pendingReliable)[old(nextReliableSeq) := Pending(payload, now)]
                && pendingOrdered == old(pendingOrdered)
              case Ordered =>
                && packet.header.channel == CHANNEL_ORDERED && packet.header.channelSeq == old(nextOrderedSeq)
                && pendingOrdered == old(pendingOrdered)[old(nextOrderedSeq) := Pending(payload, now)]
                && pendingReliable == old(pendingReliable)
    {
      var ack, ackBitfield := receiveTracker.AckData();
      var sequence := sendSequence;
      sendSequence := WrapInc32(sendSequence);
      ackTracker.TrackPacket(sequence);
      var slot;
      match reliability {
      case Unreliable =>
        slot := Slot(CHANNEL_UNRELIABLE, 0);
      case Reliable =>
        slot := Slot(CHANNEL_RELIABLE, nextReliableSeq);
        nextReliableSeq := WrapInc16(nextReliableSeq);
        pendingReliable := pendingReliable[slot.seqNo := Pending(payload, now)];
        inflightPackets := inflightPackets[sequence := slot];
      case Ordered =>
        slot := Slot(CHANNEL_ORDERED, nextOrderedSeq);
        nextOrderedSeq := WrapInc16(nextOrderedSeq);
        pendingOrdered := pendingOrdered[slot.seqNo := Pending(payload, now)];
        inflightPackets := inflightPackets[sequence := slot];
      }
      packet := Packet(PacketHeader(sequence, ack, ackBitfield, slot.channel, slot.seqNo), payload);
    }

    method ProcessPacket(packet: Packet) returns (delivered: seq<PacketType>)
      requires Valid()
      modifies this, ackTracker, receiveTracker
      ensures Valid()
      ensures (Value(), delivered) == Process(old(Value()), packet)
      ensures packet.header.sequence in old(receiveTracker.recentSequences) ==> delivered == []
      ensures packet.header.sequence !in old(receiveTracker.recentSequences) ==>
                HandsOver(Slot(packet.header.channel, packet.header.channelSeq), packet.payload,
                          old(receivedReliableHistory), old(nextExpectedOrdered), delivered)
    {
      var h := packet.header;
      UpdateAcks(h.ack, h.ackBitfield);
      var isNew := receiveTracker.RecordReceived(h.sequence);
      if !isNew {
        return [];
      }
      delivered := DeliverPayload(Slot(h.channel, h.channelSeq), packet.payload);
    }

    method UpdateAcks(ack: u32, bits: Word32)
      requires Valid()
      modifies this, ackTracker
      ensures Valid()
      ensures Value() == ApplyAcks(old(Value()), ack, bits)
      ensures receivedReliableHistory == old(receivedReliableHistory) && orderedBuffer == old(orderedBuffer)
      ensures nextExpectedOrdered == old(nextExpectedOrdered) && sendSequence == old(sendSequence)
    {
      ghost var before := Value();
      var ackedSequences := ackTracker.ProcessAck(ack, bits);
      ghost var start := Value();
      for i := 0 to |ackedSequences|
        invariant ackTracker.pending == start.tracked
        invariant receivedReliableHistory == old(receivedReliableHistory) && orderedBuffer == old(orderedBuffer)
        invariant nextExpectedOrdered == old(nextExpectedOrdered) && sendSequence == old(sendSequence)
        invariant Value() == ReleaseAll(start, ackedSequences[..i])
      {
        ReleaseAllStep(start, ackedSequences, i);
        var wire := ackedSequences[i];
        if wire in inflightPackets {
          var slot := inflightPackets[wire];
          inflightPackets := inflightPackets - {wire};
          if slot.channel == CHANNEL_RELIABLE {
            pendingReliable := pendingReliable - {slot.seqNo};
          } else if slot.channel == CHANNEL_ORDERED {
            pendingOrdered := pendingOrdered - {slot.seqNo};
          }
        }
      }
      assert ackedSequences[..|ackedSequences|] == ackedSequences;
    }

    method DeliverPayload(slot: Slot, payload: PacketType) returns (delivered: seq<PacketType>)
      modifies this
      ensures (Value(), delivered) == Deliver(old(Value()), slot, payload)
      ensures HandsOver(slot, payload, old(receivedReliableHistory), old(nextExpectedOrdered), delivered)
    {
      if slot.channel == CHANNEL_UNRELIABLE {
        delivered := [payload];
      } else if slot.channel == CHANNEL_RELIABLE {
        if slot.seqNo in receivedReliableHistory {
          delivered := [];
        } else {
          if |receivedReliableHistory| >= RELIABLE_HISTORY_SIZE {
            receivedReliableHistory := receivedReliableHistory[1..];
          }
          receivedReliableHistory := receivedReliableHistory + [slot.seqNo];
          delivered := [payload];
        }
      } else if slot.channel == CHANNEL_ORDERED {
        if slot.seqNo == nextExpectedOrdered {
          delivered := DeliverRun(payload);
        } else if SequenceGreaterThan16(slot.seqNo, nextExpectedOrdered) {
          orderedBuffer := orderedBuffer[slot.seqNo := payload];
          delivered := [];
        } else {
          delivered := [];
        }
      } else {
        delivered := [];
      }
    }

    method DeliverRun(payload: PacketType) returns (delivered: seq<PacketType>)
      modifies `nextExpectedOrdered, `orderedBuffer
      ensures var d := Drain(WrapInc16(old(nextExpectedOrdered)), old(orderedBuffer));
              nextExpectedOrdered == d.next && orderedBuffer == d.buffer && delivered == [payload] + d.payloads
    {
      delivered := [payload];
      nextExpectedOrdered := WrapInc16(nextExpectedOrdered);
      ghost var all := Drain(nextExpectedOrdered, orderedBuffer);
      while nextExpectedOrdered in orderedBuffer
        invariant var d := Drain(nextExpectedOrdered, orderedBuffer);
                  d.next == all.next && d.buffer == all.buffer && delivered + d.payloads == [payload] + all.payloads
        decreases orderedBuffer.Keys
      {
        delivered := delivered + [orderedBuffer[nextExpectedOrdered]];
        orderedBuffer := orderedBuffer - {nextExpectedOrdered};
        nextExpectedOrdered := WrapInc16(nextExpectedOrdered);
      }
    }

    /** Resends everything overdue. The order within a channel is the map's
        iteration order, which is arbitrary. */
    method CollectResends(now: nat, timeout: nat)
      returns (packets: seq<Packet>, reliable: seq<u16>, ordered: seq<u16>)
      requires Valid()
      modifies this
      ensures Valid()
      ensures ListsOverdue(reliable, old(pendingReliable), now, timeout)
      ensures ListsOverdue(ordered, old(pendingOrdered), now, timeout)
      ensures forall c :: c in reliable <==>
                c in old(pendingReliable) && now - old(pendingReliable)[c].lastSend > timeout
      ensures forall c :: c in ordered <==> c in old(pendingOrdered) && now - old(pendingOrdered)[c].lastSend > timeout
      ensures |packets| == |reliable| + |ordered|
      ensures PacketsEach(packets[..|reliable|], reliable, old(sendSequence), CHANNEL_RELIABLE,
                          receiveTracker.Value(), old(pendingReliable))
      ensures PacketsEach(packets[|reliable|..], ordered, Later(old(sendSequence), |reliable|), CHANNEL_ORDERED,
                          receiveTracker.Value(), old(pendingOrdered))
      ensures TimesEach(old(pendingReliable), pendingReliable, reliable, now)
      ensures TimesEach(old(pendingOrdered), pendingOrdered, ordered, now)
      ensures var (e1, p1) := ResendReliables(old(Value()), reliable, now);
              var (e2, p2) := ResendOrdereds(e1, ordered, now);
              Value() == e2 && packets == p1 + p2
    {
      reliable := ListOverdue(pendingReliable, now, timeout);
      ResendReliablesEach(Value(), reliable, now);
      var reliablePackets := ResendPendingReliable(reliable, now);
      ordered := ListOverdue(pendingOrdered, now, timeout);
      ResendOrderedsEach(Value(), ordered, now);
      var orderedPackets := ResendPendingOrdered(ordered, now);
      packets := reliablePackets + orderedPackets;
      assert packets[..|reliable|] == reliablePackets && packets[|reliable|..] == orderedPackets;
    }

    method ResendPendingReliable(due: seq<u16>, now: nat) returns (packets: seq<Packet>)
      requires Valid() && forall c :: c in due ==> c in pendingReliable
      modifies `sendSequence, `inflightPackets, `pendingReliable
      ensures Valid() && (Value(), packets) == ResendReliables(old(Value()), due, now)
    {
      packets := [];
      ghost var start := Value();
      for i := 0 to |due|
        invariant (Value(), packets) == ResendReliables(start, due[..i], now)
      {
        var c := due[i];
        assert due[..i + 1][..i] == due[..i];
        var packet := Resend(Slot(CHANNEL_RELIABLE, c), pendingReliable[c].payload);
        pendingReliable := pendingReliable[c := pendingReliable[c].(lastSend := now)];
        packets := packets + [packet];
      }
      assert due[..|due|] == due;
    }

    method ResendPendingOrdered(due: seq<u16>, now: nat) returns (packets: seq<Packet>)
      requires Valid() && forall c :: c in due ==> c in pendingOrdered
      modifies `sendSequence, `inflightPackets, `pendingOrdered
      ensures Valid() && (Value(), packets) == ResendOrdereds(old(Value()), due, now)
    {
      packets := [];
      ghost var start := Value();
      for i := 0 to |due|
        invariant (Value(), packets) == ResendOrdereds(start, due[..i], now)
      {
        var c := due[i];
        assert due[..i + 1][..i] == due[..i];
        var packet := Resend(Slot(CHANNEL_ORDERED, c), pendingOrdered[c].payload);
        pendingOrdered := pendingOrdered[c := pendingOrdered[c].(lastSend := now)];
        packets := packets + [packet];
      }
      assert due[..|due|] == due;
    }

    method Resend(slot: Slot, payload: PacketType) returns (packet: Packet)
      modifies `sendSequence, `inflightPackets
      ensures sendSequence == WrapInc32(old(sendSequence))
      ensures inflightPackets == old(inflightPackets)[old(sendSequence) := slot]
      ensures packet == Packet(old(Header(Value(), slot)), payload)
    {
      var ack, ackBitfield := receiveTracker.AckData();
      packet := Packet(PacketHeader(sendSequence, ack, ackBitfield, slot.channel, slot.seqNo), payload);
      inflightPackets := inflightPackets[sendSequence := slot];
      sendSequence := WrapInc32(sendSequence);
    }
  }

  method ListOverdue(pending: map<u16, Pending>, now: nat, timeout: nat) returns (due: seq<u16>)
    ensures ListsOverdue(due, pending, now, timeout)
  {
    due := [];
    var left := pending.Keys;
    while left != {}
      invariant left <= pending.Keys
      invariant forall i, j :: 0 <= i < j < |due| ==> due[i] != due[j]
      invariant forall c :: c in due <==> c in pending && c !in left && Overdue(pending[c], now, timeout)
      decreases left
    {
      var c :| c in left;
      if now - pending[c].lastSend > timeout {
        due := due + [c];
      }
      left := left - {c};
    }
  }
}
