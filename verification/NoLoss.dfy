/** End to end: before anything wraps, a queued message is still pending at the
    sender or has arrived, exactly as long as no acknowledgement releases one that
    never came. Each channel is treated on its own. */
module NoLoss {
  import opened Serial
  import opened Tracking
  import opened Protocol
  import opened Connection
  import opened Network
  import opened Retention
  import opened OrderedDelivery

  /** A reliable message has arrived when it was handed to the application, an
      ordered one when it was handed over or waits in the reorder buffer. */
  predicate Arrived(y: Party, channel: u8, c: u16, payload: PacketType) {
    if channel == CHANNEL_RELIABLE then Handed(c, payload) in y.handedReliable
    else c < |y.handedOrdered| || c in y.end.orderedBuffer
  }

  predicate NotLost(x: Party, y: Party, channel: u8, c: u16) {
    c < |Box(x, channel).messages| ==>
      c in PendingOf(x.end, channel) || Arrived(y, channel, c, Box(x, channel).messages[c])
  }

  ghost predicate NothingLost(s: System, side: Side, channel: u8) {
    forall c: u16 :: NotLost(s.Self(side), s.Peer(side), channel, c)
  }

  /** The packet's ack releases a message that has not arrived. */
  predicate Forgets(x: Party, y: Party, channel: u8, c: u16, packet: Packet) {
    && c in PendingOf(x.end, channel) && c < |Box(x, channel).messages| && c < |Box(x, channel).original|
    && !Arrived(y, channel, c, Box(x, channel).messages[c])
    && Box(x, channel).original[c] in Reported(x.end.tracked, packet.header.ack, packet.header.ackBitfield)
  }

  ghost predicate FalselyAcks(s: System, step: Step, side: Side, channel: u8) {
    step.DoReceive? && step.side == side &&
    exists c: u16 :: Forgets(s.Self(side), s.Peer(side), channel, c, step.flight.packet)
  }

  // ------------------------------------------------------------------ sending

  /** `p` grows out of `x` by sending. */
  predicate Grows(x: Party, p: Party) {
    && |p.wires| == |x.wires| + 1 && x.wires == p.wires[..|x.wires|]
    && x.reliable.messages <= p.reliable.messages && x.ordered.messages <= p.ordered.messages
    && p.recorded == x.recorded && p.handedReliable == x.handedReliable && p.handedOrdered == x.handedOrdered
    && p.end.receiver == x.end.receiver && p.end.reliableHistory == x.end.reliableHistory
    && p.end.nextExpectedOrdered == x.end.nextExpectedOrdered && p.end.orderedBuffer == x.end.orderedBuffer
    && x.end.pendingReliable.Keys <= p.end.pendingReliable.Keys
    && x.end.pendingOrdered.Keys <= p.end.pendingOrdered.Keys
  }

  predicate StampedBy(f: Flight, t: Receiver) {
    f.packet.header.ack == t.last && f.packet.header.ackBitfield == t.bits
  }

  /** Messages queued by growing from `x` to `p` are pending. */
  ghost predicate NewArePending(x: Party, p: Party) {
    forall channel, c ::
      (IsQueued(channel) && |Box(x, channel).messages| <= c < |Box(p, channel).messages|) ==>
        c in PendingOf(p.end, channel)
  }

  /** A flight carries the message its channel sequence says; before the wrap. */
  predicate FlightOk(x: Party, f: Flight) {
    var h := f.packet.header;
    && h.sequence < |x.wires| && x.wires[h.sequence] == SlotOf(f.packet)
    && (IsQueued(h.channel) ==>
          h.channelSeq < |Box(x, h.channel).messages| && f.packet.payload == Box(x, h.channel).messages[h.channelSeq])
  }

  lemma SendGrows(x: Party, payload: PacketType, reliability: Reliability, now: nat)
    ensures var (p, f) := PartySend(x, payload, reliability, now);
            Grows(x, p) && StampedBy(f, x.end.receiver)
  {
    var (p, f) := PartySend(x, payload, reliability, now);
    assert p.wires == x.wires + [NextSlot(x.end, reliability)];
  }

  lemma SendQueues(x: Party, payload: PacketType, reliability: Reliability, now: nat)
    requires WireInv(x) && NoWrap(PartySend(x, payload, reliability, now).0)
    ensures var (p, f) := PartySend(x, payload, reliability, now); FlightOk(p, f) && NewArePending(x, p)
  {
    var (p, f) := PartySend(x, payload, reliability, now);
    assert p.wires == x.wires + [NextSlot(x.end, reliability)];
  }

  lemma ResendGrows(x: Party, channel: u8, c: u16, now: nat)
    requires IsQueued(channel) && c in PendingOf(x.end, channel)
    ensures var (p, f) := PartyResend(x, channel, c, now);
            Grows(x, p) && StampedBy(f, x.end.receiver) && NewArePending(x, p)
  {
    var (p, f) := PartyResend(x, channel, c, now);
    assert p.wires == x.wires + [Slot(channel, c)];
  }

  lemma ResendQueues(x: Party, channel: u8, c: u16, now: nat)
    requires WireInv(x) && ChannelInv(x, channel) && IsQueued(channel) && c in PendingOf(x.end, channel)
    requires NoWrap(PartyResend(x, channel, c, now).0)
    ensures var (p, f) := PartyResend(x, channel, c, now); FlightOk(p, f)
  {
    var (p, f) := PartyResend(x, channel, c, now);
    assert p.wires == x.wires + [Slot(channel, c)];
  }

  lemma StepGrows(s: System, step: Step)
    requires Enabled(s, step) && (step.DoSend? || step.DoResend?)
    ensures Grows(s.Self(step.side), Next(s, step).Self(step.side))
    ensures Next(s, step).Peer(step.side) == s.Peer(step.side)
  {
    match step
    case DoSend(side, payload, reliability, now) => SendGrows(s.Self(side), payload, reliability, now);
    case DoResend(side, channel, c, now) => ResendGrows(s.Self(side), channel, c, now);
  }

  lemma StepQueues(s: System, step: Step)
    requires Enabled(s, step) && (step.DoSend? || step.DoResend?)
    requires SenderInv(s.Self(step.side)) && NoWrap(Next(s, step).Self(step.side))
    ensures NewArePending(s.Self(step.side), Next(s, step).Self(step.side))
    ensures forall f :: f in Next(s, step).Outgoing(step.side) && f !in s.Outgoing(step.side) ==>
              FlightOk(Next(s, step).Self(step.side), f)
  {
    match step
    case DoSend(side, payload, reliability, now) => SendQueues(s.Self(side), payload, reliability, now);
    case DoResend(side, channel, c, now) =>
      ResendGrows(s.Self(side), channel, c, now);
      ResendQueues(s.Self(side), channel, c, now);
  }

  // ---------------------------------------------------------------- receiving

  /** The receiving half of `PartyReceive`, for a packet not seen recently. */
  ghost predicate Takes(y: Party, y': Party, packet: Packet) {
    var h := packet.header;
    && y'.recorded == y.recorded + {h.sequence}
    && (h.sequence in y.end.receiver.recent ==>
          y'.end.receiver == y.end.receiver && y'.end.reliableHistory == y.end.reliableHistory
          && y'.handedReliable == y.handedReliable)
    && (h.sequence !in y.end.receiver.recent ==>
          && y'.end.receiver == Record(y.end.receiver, h.sequence)
          && if h.channel == CHANNEL_RELIABLE && h.channelSeq !in y.end.reliableHistory then
               && y'.end.reliableHistory == PushBounded(y.end.reliableHistory, h.channelSeq, RELIABLE_HISTORY_SIZE)
               && y'.handedReliable == y.handedReliable + [Handed(h.channelSeq, packet.payload)]
             else y'.end.reliableHistory == y.end.reliableHistory && y'.handedReliable == y.handedReliable)
  }

  lemma ReceiveTakes(y: Party, packet: Packet)
    ensures Takes(y, PartyReceive(y, packet), packet)
  {
    AckLeaves(y.end, packet.header.ack, packet.header.ackBitfield);
  }

  /** What had arrived before a receipt still counts as arrived. */
  lemma ArrivedStays(y: Party, y': Party, packet: Packet, channel: u8, c: u16, payload: PacketType)
    requires Takes(y, y', packet) && Accepts(y, y', packet) && CountsOk(y)
    requires IsQueued(channel) && Arrived(y, channel, c, payload)
    ensures Arrived(y', channel, c, payload)
  {
    var h, next, n := packet.header, y.end.nextExpectedOrdered, |y.handedOrdered|;
    if channel == CHANNEL_ORDERED && c in y.end.orderedBuffer && c !in y'.end.orderedBuffer {
      assert h.channelSeq == next;
      DrainRemoves(WrapInc16(next), y.end.orderedBuffer, c);
      if c != next {
        assert Ahead16(c, next) == Ahead16(c, WrapInc16(next)) + 1;
        assert n + Ahead16(c, next) < |y'.handedOrdered|;
      }
      ResidueBelow(n, c);
    }
  }

  /** A 16-bit number is at most the counter reached by going on to it. */
  lemma ResidueBelow(n: nat, c: u16)
    ensures c <= n + Ahead16(c, Residue16(n))
  {
    if n < POW16 { assert Residue16(n) == n; }
  }

  /** Exactly which ordered arrivals are kept, before the wrap: all that are less
      than half the range ahead. */
  lemma OrderedArrivesExactly(y: Party, y': Party, packet: Packet)
    requires Accepts(y, y', packet) && CountsOk(y) && |y.handedOrdered| < POW16
    requires packet.header.channel == CHANNEL_ORDERED && packet.header.sequence !in y.end.receiver.recent
    ensures var c := packet.header.channelSeq;
            Arrived(y', CHANNEL_ORDERED, c, packet.payload) <==>
            c in y.end.orderedBuffer || c - |y.handedOrdered| <= HALF16
  {
    var c, n, next := packet.header.channelSeq, |y.handedOrdered|, y.end.nextExpectedOrdered;
    assert next == n;
    if c != next && c in y.end.orderedBuffer { assert c in y'.end.orderedBuffer; }
  }

  // ---------------------------------------------------------- lost exactly when

  lemma EmitKeepsNotLost(s: System, step: Step, side: Side, channel: u8, c: u16)
    requires Enabled(s, step) && (step.DoSend? || step.DoResend?) && IsQueued(channel)
    requires step.side == side ==> SenderInv(s.Self(side)) && NoWrap(Next(s, step).Self(side))
    requires NotLost(s.Self(side), s.Peer(side), channel, c)
    ensures NotLost(Next(s, step).Self(side), Next(s, step).Peer(side), channel, c)
  {
    StepGrows(s, step);
    if step.side == side {
      StepQueues(s, step);
      assert NewArePending(s.Self(side), Next(s, step).Self(side));
    }
  }

  /** The sender processes an ack: a message that was safe is lost exactly if the
      ack releases it before it arrived. */
  lemma ReceiptLosesExactly(x: Party, y: Party, packet: Packet, channel: u8, c: u16)
    requires SenderInv(x) && IsQueued(channel) && NotLost(x, y, channel, c)
    ensures NotLost(PartyReceive(x, packet), y, channel, c) <==> !Forgets(x, y, channel, c, packet)
  {
    var h := packet.header;
    ReceiveOnSender(x, packet);
    AckReleases(x, h.ack, h.ackBitfield, channel, c);
    if c in PendingOf(x.end, channel) { assert PointsBack(x.end.inflight, Box(x, channel).original, channel, c); }
  }

  /** One step, whatever it is: nothing is lost after it if and only if it is not
      a receipt whose ack releases a message that has not arrived. */
  lemma StepLosesExactly(s: System, step: Step, side: Side, channel: u8)
    requires Enabled(s, step) && IsQueued(channel) && SenderInv(s.Self(side)) && NoWrap(Next(s, step).Self(side))
    requires CountsOk(s.Peer(side)) && NothingLost(s, side, channel)
    ensures NothingLost(Next(s, step), side, channel) <==> !FalselyAcks(s, step, side, channel)
  {
    var s' := Next(s, step);
    var x, y := s.Self(side), s.Peer(side);
    if step.DoReceive? && step.side == side {
      forall c: u16 ensures NotLost(s'.Self(side), s'.Peer(side), channel, c) <==>
                       !Forgets(x, y, channel, c, step.flight.packet) {
        assert NotLost(x, y, channel, c);
        ReceiptLosesExactly(x, y, step.flight.packet, channel, c);
      }
    } else {
      forall c: u16 ensures NotLost(s'.Self(side), s'.Peer(side), channel, c) {
        assert NotLost(x, y, channel, c);
        if step.DoReceive? {
          PeerReceiptKeepsNotLost(x, y, step.flight.packet, channel, c);
        } else if step.DoSend? || step.DoResend? {
          EmitKeepsNotLost(s, step, side, channel, c);
        }
      }
    }
  }

  lemma PeerReceiptKeepsNotLost(x: Party, y: Party, packet: Packet, channel: u8, c: u16)
    requires IsQueued(channel) && CountsOk(y) && NotLost(x, y, channel, c)
    ensures NotLost(x, PartyReceive(y, packet), channel, c)
  {
    ReceiveTakes(y, packet);
    ReceiveAccepts(y, packet);
    if c < |Box(x, channel).messages| && c !in PendingOf(x.end, channel) {
      ArrivedStays(y, PartyReceive(y, packet), packet, channel, c, Box(x, channel).messages[c]);
    }
  }

  lemma {:induction false} RunLosesNothing(
    states: seq<System>, steps: seq<Step>, repaired: bool, i: nat, side: Side, channel: u8)
    requires IsRun(states, steps, repaired) && i <= |steps| && IsQueued(channel) && NoWrap(states[i].Self(side))
    requires forall j :: 0 <= j < i ==> !FalselyAcks(states[j], steps[j], side, channel)
    ensures NothingLost(states[i], side, channel)
  {
    if i == 0 {
    } else {
      var s, step := states[i - 1], steps[i - 1];
      assert Enabled(s, step) && states[i - 1 + 1] == Next(s, step);
      NoWrapEarlier(s, step, side);
      RunLosesNothing(states, steps, repaired, i - 1, side, channel);
      RunKeepsSender(states, steps, repaired, i - 1, side);
      RunCounts(states, steps, repaired, i - 1, side);
      StepLosesExactly(s, step, side, channel);
    }
  }

  lemma {:induction false} NoWrapBefore(states: seq<System>, steps: seq<Step>, repaired: bool, i: nat, side: Side)
    requires IsRun(states, steps, repaired) && i <= |steps| && NoWrap(states[|steps|].Self(side))
    ensures NoWrap(states[i].Self(side))
    decreases |steps| - i
  {
    if i == |steps| {
    } else {
      NoWrapBefore(states, steps, repaired, i + 1, side);
      assert Enabled(states[i], steps[i]) && states[i + 1] == Next(states[i], steps[i]);
      NoWrapEarlier(states[i], steps[i], side);
    }
  }

  /** No loss, exactly. In every run over a network that loses, repeats and
      reorders, before anything wraps, on either channel: every message is at
      every point still pending or has arrived, if and only if no receipt has an
      ack that releases a message which has not arrived. */
  lemma NothingLostExactly(states: seq<System>, steps: seq<Step>, repaired: bool, side: Side, channel: u8)
    requires IsRun(states, steps, repaired) && IsQueued(channel) && NoWrap(states[|steps|].Self(side))
    ensures (forall i :: 0 <= i <= |steps| ==> NothingLost(states[i], side, channel))
            <==> (forall j :: 0 <= j < |steps| ==> !FalselyAcks(states[j], steps[j], side, channel))
  {
    if forall j :: 0 <= j < |steps| ==> !FalselyAcks(states[j], steps[j], side, channel) {
      forall i | 0 <= i <= |steps| ensures NothingLost(states[i], side, channel) {
        NoWrapBefore(states, steps, repaired, i, side);
        RunLosesNothing(states, steps, repaired, i, side, channel);
      }
    }
    if forall i :: 0 <= i <= |steps| ==> NothingLost(states[i], side, channel) {
      forall j | 0 <= j < |steps| ensures !FalselyAcks(states[j], steps[j], side, channel) {
        assert Enabled(states[j], steps[j]) && states[j + 1] == Next(states[j], steps[j]);
        NoWrapBefore(states, steps, repaired, j, side);
        NoWrapBefore(states, steps, repaired, j + 1, side);
        RunKeepsSender(states, steps, repaired, j, side);
        RunCounts(states, steps, repaired, j, side);
        assert NothingLost(states[j], side, channel) && NothingLost(states[j + 1], side, channel);
        StepLosesExactly(states[j], steps[j], side, channel);
      }
    }
  }

  // ------------------------------------------------------------------ genuine

  predicate HandedOk(x: Party, y: Party, c: u16) {
    c < |x.reliable.messages| && Handed(c, x.reliable.messages[c]) in y.handedReliable
  }

  predicate WasSent(x: Party, h: Handed) {
    h.seqNo < |x.reliable.messages| && h.payload == x.reliable.messages[h.seqNo]
  }

  predicate InPlace(messages: seq<PacketType>, handed: seq<PacketType>, i: nat) {
    i < |handed| && i < POW16 ==> i < |messages| && handed[i] == messages[i]
  }

  /** Before the wrap a channel sequence names one message, so what is handed over
      or buffered under it is that message. */
  ghost predicate OrderedGenuine(
    messages: seq<PacketType>, handed: seq<PacketType>, next: u16, buffer: map<u16, PacketType>)
  {
    && next == Residue16(|handed|)
    && (forall i: nat :: InPlace(messages, handed, i))
    && (forall k :: k in buffer ==> k < |messages| && buffer[k] == messages[k])
  }

  ghost predicate Genuine(x: Party, y: Party) {
    && (forall h :: h in y.handedReliable ==> WasSent(x, h))
    && (forall c :: c in y.end.reliableHistory ==> HandedOk(x, y, c))
    && OrderedGenuine(x.ordered.messages, y.handedOrdered, y.end.nextExpectedOrdered, y.end.orderedBuffer)
  }

  ghost predicate FlightsOk(x: Party, flights: set<Flight>) {
    forall f :: f in flights ==> FlightOk(x, f)
  }

  lemma TakeNextGenuine(messages: seq<PacketType>, handed: seq<PacketType>, next: u16, buffer: map<u16, PacketType>,
                        payload: PacketType)
    requires OrderedGenuine(messages, handed, next, buffer) && next < |messages| && payload == messages[next]
    ensures OrderedGenuine(messages, handed + [payload], WrapInc16(next), buffer)
  {
    IncResidue16(|handed|);
    forall i: nat ensures InPlace(messages, handed + [payload], i) {
      assert InPlace(messages, handed, i);
    }
  }

  lemma {:induction false} DrainGenuine(
    messages: seq<PacketType>, handed: seq<PacketType>, next: u16, buffer: map<u16, PacketType>)
    requires OrderedGenuine(messages, handed, next, buffer)
    ensures var d := Drain(next, buffer); OrderedGenuine(messages, handed + d.payloads, d.next, d.buffer)
    decreases buffer.Keys
  {
    var d := Drain(next, buffer);
    if next !in buffer {
      assert handed + d.payloads == handed;
    } else {
      TakeNextGenuine(messages, handed, next, buffer, buffer[next]);
      DrainGenuine(messages, handed + [buffer[next]], WrapInc16(next), buffer - {next});
      assert handed + d.payloads == handed + [buffer[next]] + Drain(WrapInc16(next), buffer - {next}).payloads;
    }
  }

  lemma AcceptGenuine(
    messages: seq<PacketType>, handed: seq<PacketType>, next: u16, buffer: map<u16, PacketType>, c: u16)
    requires OrderedGenuine(messages, handed, next, buffer) && c < |messages|
    ensures var d := AcceptOrdered(next, buffer, c, messages[c]);
            OrderedGenuine(messages, handed + d.payloads, d.next, d.buffer)
  {
    var d := AcceptOrdered(next, buffer, c, messages[c]);
    if c == next {
      TakeNextGenuine(messages, handed, next, buffer, messages[c]);
      DrainGenuine(messages, handed + [messages[c]], WrapInc16(next), buffer);
      assert handed + d.payloads == handed + [messages[c]] + Drain(WrapInc16(next), buffer).payloads;
    } else {
      assert handed + d.payloads == handed;
    }
  }

  lemma ReceiptKeepsGenuine(x: Party, y: Party, y': Party, f: Flight)
    requires Genuine(x, y) && FlightOk(x, f) && Takes(y, y', f.packet) && Accepts(y, y', f.packet)
    ensures Genuine(x, y')
  {
    var h, e := f.packet.header, y.end;
    if h.channel == CHANNEL_ORDERED && h.sequence !in e.receiver.recent {
      AcceptGenuine(x.ordered.messages, y.handedOrdered, e.nextExpectedOrdered, e.orderedBuffer, h.channelSeq);
    }
    forall c | c in y'.end.reliableHistory ensures HandedOk(x, y', c) {
      if c in y.end.reliableHistory { assert HandedOk(x, y, c); }
    }
    forall g | g in y'.handedReliable ensures WasSent(x, g) {
      if g in y.handedReliable { assert WasSent(x, g); }
    }
  }

  lemma GrowthKeepsGenuine(x: Party, p: Party, y: Party)
    requires Genuine(x, y) && x.reliable.messages <= p.reliable.messages && x.ordered.messages <= p.ordered.messages
    ensures Genuine(p, y)
  {
    forall c | c in y.end.reliableHistory ensures HandedOk(p, y, c) { assert HandedOk(x, y, c); }
    forall h | h in y.handedReliable ensures WasSent(p, h) { assert WasSent(x, h); }
    forall i: nat ensures InPlace(p.ordered.messages, y.handedOrdered, i) {
      assert InPlace(x.ordered.messages, y.handedOrdered, i);
    }
  }

  lemma GrowthKeepsFlights(x: Party, p: Party, flights: set<Flight>)
    requires FlightsOk(x, flights) && x.wires <= p.wires
    requires x.reliable.messages <= p.reliable.messages && x.ordered.messages <= p.ordered.messages
    ensures FlightsOk(p, flights)
  {
    forall f | f in flights ensures FlightOk(p, f) { assert FlightOk(x, f); }
  }

  ghost predicate GenuineInv(s: System, side: Side) {
    FlightsOk(s.Self(side), s.Outgoing(side)) && Genuine(s.Self(side), s.Peer(side))
  }

  lemma StepKeepsGenuine(s: System, step: Step, side: Side)
    requires Enabled(s, step) && SenderInv(s.Self(side)) && NoWrap(Next(s, step).Self(side)) && GenuineInv(s, side)
    ensures GenuineInv(Next(s, step), side)
  {
    var x, y, s' := s.Self(side), s.Peer(side), Next(s, step);
    if step.DoSend? || step.DoResend? {
      StepGrows(s, step);
      if step.side == side {
        StepQueues(s, step);
        GrowthKeepsFlights(x, s'.Self(side), s.Outgoing(side));
        GrowthKeepsGenuine(x, s'.Self(side), y);
      }
    } else if step.DoReceive? {
      if step.side == side {
        ReceiveSends(x, step.flight.packet);
        GrowthKeepsFlights(x, s'.Self(side), s.Outgoing(side));
        GrowthKeepsGenuine(x, s'.Self(side), y);
      } else {
        ReceiveTakes(y, step.flight.packet);
        ReceiveAccepts(y, step.flight.packet);
        ReceiptKeepsGenuine(x, y, s'.Peer(side), step.flight);
      }
    }
  }

  lemma ReceiveSends(x: Party, packet: Packet)
    ensures var x' := PartyReceive(x, packet);
            x'.wires == x.wires && x'.reliable == x.reliable && x'.ordered == x.ordered
  {
  }

  lemma {:induction false} RunKeepsGenuine(states: seq<System>, steps: seq<Step>, repaired: bool, i: nat, side: Side)
    requires IsRun(states, steps, repaired) && i <= |steps| && NoWrap(states[i].Self(side))
    ensures GenuineInv(states[i], side)
  {
    if i == 0 {
    } else {
      var s, step := states[i - 1], steps[i - 1];
      assert Enabled(s, step) && states[i - 1 + 1] == Next(s, step);
      NoWrapEarlier(s, step, side);
      RunKeepsGenuine(states, steps, repaired, i - 1, side);
      RunKeepsSender(states, steps, repaired, i - 1, side);
      StepKeepsGenuine(s, step, side);
    }
  }

  /** Before the wrap no window is needed for the order: whatever arrives, the
      ordered channel has handed over a prefix of what was sent. */
  lemma PrefixBeforeWrap(states: seq<System>, steps: seq<Step>, repaired: bool, side: Side)
    requires IsRun(states, steps, repaired) && NoWrap(states[|steps|].Self(side))
    requires |states[|steps|].Self(side).ordered.messages| < POW16
    ensures states[|steps|].Peer(side).handedOrdered <= states[|steps|].Self(side).ordered.messages
  {
    RunKeepsGenuine(states, steps, repaired, |steps|, side);
    var messages, handed := states[|steps|].Self(side).ordered.messages, states[|steps|].Peer(side).handedOrdered;
    assert InPlace(messages, handed, |messages|);
    forall i | 0 <= i < |handed| ensures handed[i] == messages[i] { assert InPlace(messages, handed, i); }
  }

  // ------------------------------------------------- from sound acks to no loss

  /** An ordered message less than half the range ahead of the next expected one. */
  predicate NotFarAhead(s: System, step: Step, side: Side) {
    OrderedArrival(s, step, side) ==>
      step.flight.packet.header.channelSeq - |s.Peer(side).handedOrdered| <= HALF16
  }

  /** A recorded wire sequence brought its message. */
  predicate WireArrived(x: Party, y: Party, channel: u8, w: u32) {
    && w < |x.wires|
    && (x.wires[w].channel == channel ==>
          var c := x.wires[w].seqNo;
          c < |Box(x, channel).messages| && Arrived(y, channel, c, Box(x, channel).messages[c]))
  }

  ghost predicate RecordedArrived(x: Party, y: Party, channel: u8) {
    && (forall w :: w in y.end.receiver.recent ==> w in y.recorded)
    && (forall w :: w in y.recorded ==> WireArrived(x, y, channel, w))
  }

  lemma RecordRecent(t: Receiver, s: u32)
    ensures forall w :: w in Record(t, s).recent ==> w in t.recent || w == s
  {
  }

  lemma PacketArrives(x: Party, y: Party, y': Party, f: Flight, channel: u8)
    requires Takes(y, y', f.packet) && Accepts(y, y', f.packet) && Genuine(x, y) && FlightOk(x, f)
    requires f.packet.header.sequence !in y.end.receiver.recent
    requires IsQueued(channel) && f.packet.header.channel == channel
    requires channel == CHANNEL_ORDERED ==> f.packet.header.channelSeq - |y.handedOrdered| <= HALF16
    ensures Arrived(y', channel, f.packet.header.channelSeq, f.packet.payload)
  {
    var h := f.packet.header;
    if channel == CHANNEL_ORDERED {
      if |y.handedOrdered| < POW16 { OrderedArrivesExactly(y, y', f.packet); }
    } else if h.channelSeq in y.end.reliableHistory {
      assert HandedOk(x, y, h.channelSeq);
    }
  }

  lemma ReceiptKeepsRecorded(x: Party, y: Party, y': Party, f: Flight, channel: u8)
    requires RecordedArrived(x, y, channel) && Genuine(x, y) && FlightOk(x, f) && IsQueued(channel)
    requires Takes(y, y', f.packet) && Accepts(y, y', f.packet)
    requires channel == CHANNEL_ORDERED && f.packet.header.channel == CHANNEL_ORDERED
             && f.packet.header.sequence !in y.end.receiver.recent ==>
               f.packet.header.channelSeq - |y.handedOrdered| <= HALF16
    ensures RecordedArrived(x, y', channel)
  {
    var h := f.packet.header;
    RecordRecent(y.end.receiver, h.sequence);
    forall w | w in y'.recorded ensures WireArrived(x, y', channel, w) {
      if w in y.recorded {
        assert WireArrived(x, y, channel, w);
        var slot := x.wires[w];
        if slot.channel == channel {
          ArrivedStays(y, y', f.packet, channel, slot.seqNo, Box(x, channel).messages[slot.seqNo]);
        }
      } else if h.channel == channel {
        PacketArrives(x, y, y', f, channel);
      }
    }
  }

  lemma GrowthKeepsRecorded(x: Party, p: Party, y: Party, channel: u8)
    requires RecordedArrived(x, y, channel) && x.wires <= p.wires
    requires x.reliable.messages <= p.reliable.messages && x.ordered.messages <= p.ordered.messages
    ensures RecordedArrived(p, y, channel)
  {
    forall w | w in y.recorded ensures WireArrived(p, y, channel, w) { assert WireArrived(x, y, channel, w); }
  }

  lemma PeerKeepsRecorded(x: Party, y: Party, p: Party, channel: u8)
    requires RecordedArrived(x, y, channel) && Grows(y, p)
    ensures RecordedArrived(x, p, channel)
  {
    forall w | w in p.recorded ensures WireArrived(x, p, channel, w) { assert WireArrived(x, y, channel, w); }
  }

  lemma StepKeepsRecorded(s: System, step: Step, side: Side, channel: u8)
    requires Enabled(s, step) && IsQueued(channel) && GenuineInv(s, side)
    requires channel == CHANNEL_ORDERED ==> NotFarAhead(s, step, side)
    requires RecordedArrived(s.Self(side), s.Peer(side), channel)
    ensures RecordedArrived(Next(s, step).Self(side), Next(s, step).Peer(side), channel)
  {
    var x, y, s' := s.Self(side), s.Peer(side), Next(s, step);
    if step.DoSend? || step.DoResend? {
      StepGrows(s, step);
      if step.side == side {
        GrowthKeepsRecorded(x, s'.Self(side), y, channel);
      } else {
        PeerKeepsRecorded(x, y, s'.Peer(side), channel);
      }
    } else if step.DoReceive? {
      if step.side == side {
        ReceiveSends(x, step.flight.packet);
        GrowthKeepsRecorded(x, s'.Self(side), y, channel);
      } else {
        ReceiveTakes(y, step.flight.packet);
        ReceiveAccepts(y, step.flight.packet);
        ReceiptKeepsRecorded(x, y, s'.Peer(side), step.flight, channel);
      }
    }
  }

  lemma {:induction false} RunKeepsRecorded(
    states: seq<System>, steps: seq<Step>, repaired: bool, i: nat, side: Side, channel: u8)
    requires IsRun(states, steps, repaired) && i <= |steps| && IsQueued(channel) && NoWrap(states[i].Self(side))
    requires channel == CHANNEL_ORDERED ==> forall j :: 0 <= j < i ==> NotFarAhead(states[j], steps[j], side)
    ensures RecordedArrived(states[i].Self(side), states[i].Peer(side), channel)
  {
    if i == 0 {
    } else {
      var s, step := states[i - 1], steps[i - 1];
      assert Enabled(s, step) && states[i - 1 + 1] == Next(s, step);
      NoWrapEarlier(s, step, side);
      RunKeepsRecorded(states, steps, repaired, i - 1, side, channel);
      RunKeepsGenuine(states, steps, repaired, i - 1, side);
      StepKeepsRecorded(s, step, side, channel);
    }
  }

  /** Nothing of the channel is released by acking `q`. */
  predicate Idle(x: Party, q: u32, channel: u8) {
    q < |x.wires| ==> x.wires[q].channel != channel
  }

  /** Ack soundness: a packet `side` receives claims only what its peer recorded,
      or wire sequences that carry nothing on the channel. */
  ghost predicate TruthfulReceipt(s: System, step: Step, side: Side, channel: u8) {
    step.DoReceive? && step.side == side ==>
      var h := step.flight.packet.header;
      forall q: u32 :: Claims(h.ack, h.ackBitfield, q) ==>
        q in s.Peer(side).recorded || Idle(s.Self(side), q, channel)
  }

  lemma TruthfulForgetsNothing(s: System, step: Step, side: Side, channel: u8, c: u16)
    requires SenderInv(s.Self(side)) && IsQueued(channel) && TruthfulReceipt(s, step, side, channel)
    requires RecordedArrived(s.Self(side), s.Peer(side), channel) && step.DoReceive? && step.side == side
    ensures !Forgets(s.Self(side), s.Peer(side), channel, c, step.flight.packet)
  {
    var x, y, h := s.Self(side), s.Peer(side), step.flight.packet.header;
    if c in PendingOf(x.end, channel) {
      assert PointsBack(x.end.inflight, Box(x, channel).original, channel, c);
      var q: u32 := Box(x, channel).original[c];
      ReportedExactly(x.end.tracked, h.ack, h.ackBitfield, q);
      assert x.wires[q] == Slot(channel, c) && !Idle(x, q, channel);
      assert q in y.recorded ==> WireArrived(x, y, channel, q);
    }
  }

  lemma TruthfulIsNotFalse(s: System, step: Step, side: Side, channel: u8)
    requires SenderInv(s.Self(side)) && IsQueued(channel) && TruthfulReceipt(s, step, side, channel)
    requires RecordedArrived(s.Self(side), s.Peer(side), channel)
    ensures !FalselyAcks(s, step, side, channel)
  {
    if step.DoReceive? && step.side == side {
      forall c: u16 ensures !Forgets(s.Self(side), s.Peer(side), channel, c, step.flight.packet) {
        TruthfulForgetsNothing(s, step, side, channel, c);
      }
    }
  }

  /** What no loss means for message `c`. */
  predicate Kept(x: Party, y: Party, channel: u8, c: u16) {
    c < |Box(x, channel).messages| ==>
      || c in PendingOf(x.end, channel)
      || (channel == CHANNEL_RELIABLE && Handed(c, x.reliable.messages[c]) in y.handedReliable)
      || (channel == CHANNEL_ORDERED && c < |y.handedOrdered| && y.handedOrdered[c] == x.ordered.messages[c])
      || (channel == CHANNEL_ORDERED && c in y.end.orderedBuffer && y.end.orderedBuffer[c] == x.ordered.messages[c])
  }

  /** No loss from sound acks. In every run before the wrap in which the acks
      received are sound, each reliable message is still pending or was handed to
      the peer's application; each ordered one is still pending, or was handed
      over at its own position, or waits in the reorder buffer, provided none
      arrives half the range ahead or more. */
  lemma NothingIsLost(states: seq<System>, steps: seq<Step>, repaired: bool, side: Side, channel: u8, c: u16)
    requires IsRun(states, steps, repaired) && IsQueued(channel) && NoWrap(states[|steps|].Self(side))
    requires forall j :: 0 <= j < |steps| ==> TruthfulReceipt(states[j], steps[j], side, channel)
    requires channel == CHANNEL_ORDERED ==> forall j :: 0 <= j < |steps| ==> NotFarAhead(states[j], steps[j], side)
    ensures Kept(states[|steps|].Self(side), states[|steps|].Peer(side), channel, c)
  {
    forall j | 0 <= j < |steps| ensures !FalselyAcks(states[j], steps[j], side, channel) {
      NoWrapBefore(states, steps, repaired, j, side);
      RunKeepsSender(states, steps, repaired, j, side);
      RunKeepsRecorded(states, steps, repaired, j, side, channel);
      TruthfulIsNotFalse(states[j], steps[j], side, channel);
    }
    RunLosesNothing(states, steps, repaired, |steps|, side, channel);
    assert NotLost(states[|steps|].Self(side), states[|steps|].Peer(side), channel, c);
    ArrivedIsKept(states, steps, repaired, side, channel, c);
  }

  /** Before the wrap what arrived under `c` is message `c`. */
  lemma ArrivedIsKept(states: seq<System>, steps: seq<Step>, repaired: bool, side: Side, channel: u8, c: u16)
    requires IsRun(states, steps, repaired) && IsQueued(channel) && NoWrap(states[|steps|].Self(side))
    ensures var x, y := states[|steps|].Self(side), states[|steps|].Peer(side);
            NotLost(x, y, channel, c) <==> Kept(x, y, channel, c)
  {
    RunKeepsGenuine(states, steps, repaired, |steps|, side);
    assert InPlace(states[|steps|].Self(side).ordered.messages, states[|steps|].Peer(side).handedOrdered, c);
  }
}
