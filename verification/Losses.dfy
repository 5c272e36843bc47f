/** How messages are lost: exactly when a receipt loses one, and concrete runs of
    the code in which it happens. */
module Losses {
  import opened Serial
  import opened Tracking
  import opened Protocol
  import opened Connection
  import opened Network
  import opened OrderedDelivery
  import opened NoLoss
  import opened AckDiscipline
  import Retention

  predicate Lost(x: Party, y: Party, channel: u8, c: u16) {
    c < |Box(x, channel).messages| && c !in PendingOf(x.end, channel)
    && !Arrived(y, channel, c, Box(x, channel).messages[c])
  }

  /** Exactly when a receipt loses a message that has not arrived: its ack claims
      the wire sequence the message was first sent with, still unacked. */
  lemma LossIsFalseClaim(x: Party, y: Party, packet: Packet, channel: u8, c: u16)
    requires Retention.SenderInv(x) && IsQueued(channel) && c in PendingOf(x.end, channel)
    requires !Arrived(y, channel, c, PendingOf(x.end, channel)[c].payload)
    ensures Lost(PartyReceive(x, packet), y, channel, c) <==>
            && c < |Box(x, channel).original| && 0 <= Box(x, channel).original[c] <= MAX32
            && Claims(packet.header.ack, packet.header.ackBitfield, Box(x, channel).original[c])
            && Unacked(x.end.tracked, Box(x, channel).original[c])
  {
    var h := packet.header;
    assert Retention.PointsBack(x.end.inflight, Box(x, channel).original, channel, c);
    Retention.ReceiveOnSender(x, packet);
    Retention.AckReleases(x, h.ack, h.ackBitfield, channel, c);
    ReportedExactly(x.end.tracked, h.ack, h.ackBitfield, Box(x, channel).original[c]);
  }

  /** A side that has received nothing sends ack 0. If the peer's sequence 0 is
      a reliable message still on its way, that message is forgotten: here B's
      only reliable message, while A has received nothing at all. */
  lemma EarlyHeaderLosesMessage()
    ensures var f := EarlyFlight(0, UNQUEUED, Ping(0));
            var s1 := Next(Start(false), DoSend(A, Ping(0), Unreliable, 0));
            var s2 := Next(s1, DoSend(B, Disconnect, Reliable, 0));
            f in s2.toB && Lost(Next(s2, DoReceive(B, f)).b, s2.a, CHANNEL_RELIABLE, 0)
  {
    var f := EarlyFlight(0, UNQUEUED, Ping(0));
    var s1 := Next(Start(false), DoSend(A, Ping(0), Unreliable, 0));
    assert s1.toB == {f};
    var b := Next(s1, DoSend(B, Disconnect, Reliable, 0)).b;
    assert b.end.tracked[0] == Tracked(0, false);
    ClaimReleases(b.end, f.packet, 0, CHANNEL_RELIABLE, 0);
  }

  /** Three packets sent, the middle one reliable. */
  function ThreeSent(): System {
    var s1 := Next(Start(false), DoSend(A, Ping(0), Unreliable, 0));
    var s2 := Next(s1, DoSend(A, Disconnect, Reliable, 0));
    Next(s2, DoSend(A, Ping(1), Unreliable, 0))
  }

  lemma ThreeSentState()
    ensures var s := ThreeSent();
            && EarlyFlight(0, UNQUEUED, Ping(0)) in s.toB && EarlyFlight(2, UNQUEUED, Ping(1)) in s.toB
            && Unacked(s.a.end.tracked, 1) && s.a.end.inflight == map[1 := FIRST_RELIABLE]
            && s.a.reliable.messages == [Disconnect] && s.b == FreshParty(false)
  {
    var s1 := Next(Start(false), DoSend(A, Ping(0), Unreliable, 0));
    var s2 := Next(s1, DoSend(A, Disconnect, Reliable, 0));
    var s := Next(s2, DoSend(A, Ping(1), Unreliable, 0));
    assert s1.toB == {EarlyFlight(0, UNQUEUED, Ping(0))} && s1.a.end.tracked == [Tracked(0, false)];
    assert s2.a.end.tracked == [Tracked(0, false), Tracked(1, false)];
    assert s.a.end.tracked[1] == Tracked(1, false);
  }

  /** One lost packet is enough. A's reliable packet 1 never arrives, packet 2
      does; B's next header claims packet 1, and A forgets the message. */
  lemma GapLosesMessage()
    ensures var f0, f2 := EarlyFlight(0, UNQUEUED, Ping(0)), EarlyFlight(2, UNQUEUED, Ping(1));
            var s3 := ThreeSent();
            && f0 in s3.toB && f2 in s3.toB
            && var s5 := Next(Next(s3, DoReceive(B, f0)), DoReceive(B, f2));
               var (b, answer) := PartySend(s5.b, Pong(0), Unreliable, 0);
               Lost(PartyReceive(s5.a, answer.packet), b, CHANNEL_RELIABLE, 0)
  {
    ThreeSentState();
    var f0, f2 := EarlyFlight(0, UNQUEUED, Ping(0)), EarlyFlight(2, UNQUEUED, Ping(1));
    var s3 := ThreeSent();
    var s4 := Next(s3, DoReceive(B, f0));
    ReceiveTakes(s3.b, f0.packet);
    assert s4.b.end.receiver == Receiver(0, Zero(), [0], false);
    var s5 := Next(s4, DoReceive(B, f2));
    ReceiveTakes(s4.b, f2.packet);
    assert s5.b.end.receiver.last == 2 && s5.b.end.receiver.bits[0];
    var answer := PartySend(s5.b, Pong(0), Unreliable, 0).1;
    assert s5.a == s3.a;
    assert Claims(answer.packet.header.ack, answer.packet.header.ackBitfield, 1);
    ClaimReleases(s5.a.end, answer.packet, 1, CHANNEL_RELIABLE, 0);
    assert s5.b.handedReliable == [];
  }

  // ------------------------------------------------------- too far ahead

  /** A sends `n` ordered messages. */
  function Sent(n: nat): System {
    if n == 0 then Start(false) else Next(Sent(n - 1), DoSend(A, Disconnect, Ordered, 0))
  }

  function OrderedFlight(n: u16): Flight {
    Flight(Packet(PacketHeader(n, 0, Zero(), CHANNEL_ORDERED, n), Disconnect), n)
  }

  lemma {:induction false} SentState(n: nat)
    requires n < POW16
    ensures var s := Sent(n);
            && s.b == FreshParty(false) && s.a.end.receiver == FreshReceiver(false)
            && |s.a.wires| == |s.a.ordered.messages| == |s.a.ordered.original| == n
            && s.a.end.sendSequence == n && s.a.end.nextOrderedSeq == n
  {
    if n == 0 {
    } else {
      SentState(n - 1);
    }
  }

  lemma LastSent(n: u16)
    requires n < 0xFFFF
    ensures var s := Sent(n + 1);
            && OrderedFlight(n) in s.toB && n in s.a.end.pendingOrdered && Unacked(s.a.end.tracked, n)
            && n in s.a.end.inflight && s.a.end.inflight[n] == Slot(CHANNEL_ORDERED, n)
  {
    SentState(n);
    var tracked := Sent(n).a.end.tracked;
    assert Sent(n + 1) == Next(Sent(n), DoSend(A, Disconnect, Ordered, 0));
    var tracked' := Track(tracked, n);
    assert tracked'[|tracked'| - 1] == Tracked(n, false);
    assert Sent(n + 1).a.end.tracked == tracked';
  }

  /** Sound acks are not enough for the ordered channel. Of more than 2^15 ordered
      messages only the last arrives. It is dropped as too far ahead, but its wire
      sequence is recorded; the truthful ack makes A forget it. */
  lemma FarAheadLosesMessage(n: u16)
    requires 0x8000 <= n < 0xFFFF
    ensures var s := Sent(n + 1);
            OrderedFlight(n) in s.toB &&
            var s' := Next(s, DoReceive(B, OrderedFlight(n)));
            var (b, answer) := PartySend(s'.b, Pong(0), Unreliable, 0);
            && Sound(s'.b.end.receiver, s'.b.recorded)
            && Lost(PartyReceive(s'.a, answer.packet), b, CHANNEL_ORDERED, n)
  {
    SentState(n + 1);
    LastSent(n);
    FarAheadIsForgotten(Sent(n + 1), n);
  }

  lemma FarAheadIsForgotten(s: System, n: u16)
    requires 0x8000 <= n < 0xFFFF && s.b == FreshParty(false) && OrderedFlight(n) in s.toB
    requires n < |s.a.ordered.messages| && Unacked(s.a.end.tracked, n)
    requires n in s.a.end.inflight && s.a.end.inflight[n] == Slot(CHANNEL_ORDERED, n)
    ensures var s' := Next(s, DoReceive(B, OrderedFlight(n)));
            var (b, answer) := PartySend(s'.b, Pong(0), Unreliable, 0);
            && Sound(s'.b.end.receiver, s'.b.recorded)
            && Lost(PartyReceive(s'.a, answer.packet), b, CHANNEL_ORDERED, n)
  {
    var f := OrderedFlight(n);
    FarAheadIsDropped(s.b, f.packet);
    var b' := PartyReceive(s.b, f.packet);
    var answer := PartySend(b', Pong(0), Unreliable, 0).1;
    SendGrows(b', Pong(0), Unreliable, 0);
    ClaimReleases(s.a.end, answer.packet, n, CHANNEL_ORDERED, n);
  }

  lemma FarAheadIsDropped(b: Party, packet: Packet)
    requires b == FreshParty(false) && 0x8000 <= packet.header.channelSeq < 0xFFFF
    requires packet.header.channel == CHANNEL_ORDERED && packet.header.sequence == packet.header.channelSeq
    ensures var b' := PartyReceive(b, packet);
            && b'.recorded == {packet.header.sequence} && b'.end.receiver.last == packet.header.sequence
            && Sound(b'.end.receiver, b'.recorded) && b'.handedOrdered == [] && b'.end.orderedBuffer == map[]
  {
    ReceiveRecords(b, packet);
    ReceiveAccepts(b, packet);
    FirstArrival(packet.header.sequence);
  }
}
