/** The unreliable channel, which carries snapshots and commands: everything that
    arrives as new is handed over, as it was sent, and nothing else is. */
module UnreliableDelivery {
  import opened Collections
  import opened Serial
  import opened Tracking
  import opened Protocol
  import opened Connection
  import opened Network
  import Retention

  function ChannelOf(reliability: Reliability): u8 {
    match reliability
    case Unreliable => 0
    case Reliable => 1
    case Ordered => 2
  }

  // ------------------------------------------------------------------- flights

  /** The packet is the one sent as number `w`, on the channel asked for. */
  predicate SentAs(x: Party, packet: Packet, w: nat) {
    && w < |x.sendings| && Residue32(w) == packet.header.sequence
    && packet.header.channel == ChannelOf(x.sendings[w].reliability)
    && packet.payload == x.sendings[w].payload
  }

  ghost predicate WasSent(x: Party, packet: Packet) {
    exists w: nat :: SentAs(x, packet, w)
  }

  ghost predicate SendingInv(x: Party, flights: set<Flight>) {
    && x.end.sendSequence == Residue32(|x.sendings|)
    && forall f :: f in flights ==> WasSent(x, f.packet)
  }

  lemma SendAppends(x: Party, payload: PacketType, reliability: Reliability, now: nat)
    requires x.end.sendSequence == Residue32(|x.sendings|)
    ensures var (p, f) := PartySend(x, payload, reliability, now);
            && p.sendings == x.sendings + [Sending(reliability, payload)]
            && p.end.sendSequence == Residue32(|p.sendings|) && SentAs(p, f.packet, |x.sendings|)
  {
    IncResidue32(|x.sendings|);
  }

  lemma ResendAppends(x: Party, channel: u8, c: u16, now: nat)
    requires x.end.sendSequence == Residue32(|x.sendings|) && IsQueued(channel) && c in PendingOf(x.end, channel)
    ensures var (p, f) := PartyResend(x, channel, c, now);
            && |p.sendings| == |x.sendings| + 1 && x.sendings <= p.sendings
            && p.end.sendSequence == Residue32(|p.sendings|) && SentAs(p, f.packet, |x.sendings|)
            && p.sendings[|x.sendings|].reliability != Unreliable
  {
    IncResidue32(|x.sendings|);
  }

  lemma EmitKeepsSending(x: Party, p: Party, f: Flight, flights: set<Flight>)
    requires SendingInv(x, flights) && x.sendings <= p.sendings
    requires p.end.sendSequence == Residue32(|p.sendings|) && SentAs(p, f.packet, |x.sendings|)
    ensures SendingInv(p, flights + {f})
  {
    forall g | g in flights + {f} ensures WasSent(p, g.packet) {
      if g in flights {
        assert WasSent(x, g.packet);
        var w: nat :| SentAs(x, g.packet, w);
        assert SentAs(p, g.packet, w);
      } else {
        assert SentAs(p, g.packet, |x.sendings|);
      }
    }
  }

  lemma ReceiveLeavesSending(x: Party, packet: Packet)
    ensures PartyReceive(x, packet).sendings == x.sendings
    ensures PartyReceive(x, packet).end.sendSequence == x.end.sendSequence
  {
    Retention.ReceiveOnSender(x, packet);
    Retention.AckLeaves(x.end, packet.header.ack, packet.header.ackBitfield);
  }

  lemma StepKeepsSending(s: System, step: Step, side: Side)
    requires Enabled(s, step) && SendingInv(s.Self(side), s.Outgoing(side))
    ensures SendingInv(Next(s, step).Self(side), Next(s, step).Outgoing(side))
  {
    var x := s.Self(side);
    if step.side == side {
      match step
      case DoSend(_, payload, reliability, now) =>
        SendAppends(x, payload, reliability, now);
        var (p, f) := PartySend(x, payload, reliability, now);
        EmitKeepsSending(x, p, f, s.Outgoing(side));
      case DoResend(_, channel, c, now) =>
        ResendAppends(x, channel, c, now);
        var (p, f) := PartyResend(x, channel, c, now);
        EmitKeepsSending(x, p, f, s.Outgoing(side));
      case DoReceive(_, f) =>
        ReceiveLeavesSending(x, f.packet);
        SameSendings(x, PartyReceive(x, f.packet), s.Outgoing(side));
      case DoLose(_, _) =>
    }
  }

  lemma SameSendings(x: Party, x': Party, flights: set<Flight>)
    requires SendingInv(x, flights) && x'.sendings == x.sendings && x'.end.sendSequence == x.end.sendSequence
    ensures SendingInv(x', flights)
  {
    forall f | f in flights ensures WasSent(x', f.packet) {
      assert WasSent(x, f.packet);
      var w: nat :| SentAs(x, f.packet, w);
      assert SentAs(x', f.packet, w);
    }
  }

  /** Every packet in flight is one that was sent, wraps included: same payload, same
      wire sequence, and the channel asked for. */
  lemma {:induction false} FlightsWereSent(states: seq<System>, steps: seq<Step>, repaired: bool, i: nat, side: Side)
    requires IsRun(states, steps, repaired) && i <= |steps|
    ensures SendingInv(states[i].Self(side), states[i].Outgoing(side))
  {
    if i == 0 {
    } else {
      assert Enabled(states[i - 1], steps[i - 1]) && states[i - 1 + 1] == Next(states[i - 1], steps[i - 1]);
      FlightsWereSent(states, steps, repaired, i - 1, side);
      StepKeepsSending(states[i - 1], steps[i - 1], side);
    }
  }

  // ------------------------------------------------------------------ receiving

  /** The last 128 wire sequences taken as new are remembered, and none of them is
      taken as new again. */
  ghost predicate ArrivalsInv(y: Party) {
    && y.end.receiver.recent == KeepLast(y.arrivals, MAX_RECENT)
    && (forall i, j :: 0 <= i < j < |y.arrivals| && j - i <= MAX_RECENT ==> y.arrivals[i] != y.arrivals[j])
  }

  predicate IsNew(y: Party, packet: Packet) { packet.header.sequence !in KeepLast(y.arrivals, MAX_RECENT) }

  /** What a receipt adds to the payloads handed over. */
  lemma ReceiptHandsOver(y: Party, packet: Packet)
    requires ArrivalsInv(y)
    ensures var y' := PartyReceive(y, packet);
            && y'.arrivals == y.arrivals + (if IsNew(y, packet) then [packet.header.sequence] else [])
            && y'.handedPlain == y.handedPlain + (if IsNew(y, packet) && packet.header.channel == CHANNEL_UNRELIABLE
                                                  then [Plain(|y.arrivals|, packet.payload)] else [])
            && ArrivalsInv(y')
  {
    var y' := PartyReceive(y, packet);
    Retention.AckLeaves(y.end, packet.header.ack, packet.header.ackBitfield);
    if IsNew(y, packet) { ArrivalIsNew(y.arrivals, packet.header.sequence); }
  }

  lemma ArrivalIsNew(arrivals: seq<u32>, s: u32)
    requires s !in KeepLast(arrivals, MAX_RECENT)
    ensures PushBounded(KeepLast(arrivals, MAX_RECENT), s, MAX_RECENT) == KeepLast(arrivals + [s], MAX_RECENT)
    ensures forall i :: 0 <= i < |arrivals| && |arrivals| - i <= MAX_RECENT ==> arrivals[i] != s
  {
    var recent := KeepLast(arrivals, MAX_RECENT);
    forall i | 0 <= i < |arrivals| && |arrivals| - i <= MAX_RECENT ensures arrivals[i] != s {
      assert recent[i - (|arrivals| - |recent|)] == arrivals[i];
    }
  }

  /** Each payload handed over outside the queued channels came with a new arrival of
      a packet the peer sent unreliably. */
  predicate GenuineAs(x: Party, y: Party, h: Plain, w: nat) {
    && h.at < |y.arrivals| && w < |x.sendings| && Residue32(w) == y.arrivals[h.at]
    && x.sendings[w] == Sending(Unreliable, h.payload)
  }

  ghost predicate Genuine(x: Party, y: Party, h: Plain) {
    exists w: nat :: GenuineAs(x, y, h, w)
  }

  ghost predicate PlainInv(x: Party, y: Party) {
    && ArrivalsInv(y)
    && (forall h :: h in y.handedPlain ==> Genuine(x, y, h))
    && (forall i, j :: 0 <= i < j < |y.handedPlain| ==> y.handedPlain[i].at < y.handedPlain[j].at)
    && (forall i :: 0 <= i < |y.handedPlain| ==> y.handedPlain[i].at < |y.arrivals|)
  }

  lemma GenuineStays(x: Party, y: Party, x': Party, y': Party, h: Plain)
    requires Genuine(x, y, h) && x.sendings <= x'.sendings && y.arrivals <= y'.arrivals
    ensures Genuine(x', y', h)
  {
    var w: nat :| GenuineAs(x, y, h, w);
    assert GenuineAs(x', y', h, w);
  }

  lemma ReceiptKeepsPlain(x: Party, y: Party, packet: Packet)
    requires PlainInv(x, y) && WasSent(x, packet)
    ensures PlainInv(x, PartyReceive(y, packet))
  {
    var y' := PartyReceive(y, packet);
    ReceiptHandsOver(y, packet);
    forall h | h in y'.handedPlain ensures Genuine(x, y', h) {
      if h in y.handedPlain {
        GenuineStays(x, y, x, y', h);
      } else {
        var w: nat :| SentAs(x, packet, w);
        assert GenuineAs(x, y', h, w);
      }
    }
  }

  lemma GrowthKeepsPlain(x: Party, y: Party, x': Party, y': Party)
    requires PlainInv(x, y) && x.sendings <= x'.sendings
    requires y'.arrivals == y.arrivals && y'.handedPlain == y.handedPlain && y'.end.receiver == y.end.receiver
    ensures PlainInv(x', y')
  {
    forall h | h in y'.handedPlain ensures Genuine(x', y', h) { GenuineStays(x, y, x', y', h); }
  }

  lemma EmitLeavesReceiver(s: System, step: Step)
    requires Enabled(s, step) && (step.DoSend? || step.DoResend?)
    ensures var x, p := s.Self(step.side), Next(s, step).Self(step.side);
            && x.sendings <= p.sendings && p.arrivals == x.arrivals && p.handedPlain == x.handedPlain
            && p.end.receiver == x.end.receiver
    ensures Next(s, step).Peer(step.side) == s.Peer(step.side)
  {
  }

  lemma StepKeepsPlain(s: System, step: Step, side: Side)
    requires Enabled(s, step) && SendingInv(s.Self(side), s.Outgoing(side)) && PlainInv(s.Self(side), s.Peer(side))
    ensures PlainInv(Next(s, step).Self(side), Next(s, step).Peer(side))
  {
    var s' := Next(s, step);
    if step.DoSend? || step.DoResend? {
      EmitLeavesReceiver(s, step);
      GrowthKeepsPlain(s.Self(side), s.Peer(side), s'.Self(side), s'.Peer(side));
    } else if step.DoReceive? {
      if step.side == side {
        ReceiveLeavesSending(s.Self(side), step.flight.packet);
        GrowthKeepsPlain(s.Self(side), s.Peer(side), s'.Self(side), s'.Peer(side));
      } else {
        ReceiptKeepsPlain(s.Self(side), s.Peer(side), step.flight.packet);
      }
    }
  }

  lemma {:induction false} RunKeepsPlain(states: seq<System>, steps: seq<Step>, repaired: bool, i: nat, side: Side)
    requires IsRun(states, steps, repaired) && i <= |steps|
    ensures PlainInv(states[i].Self(side), states[i].Peer(side))
  {
    if i == 0 {
    } else {
      assert Enabled(states[i - 1], steps[i - 1]) && states[i - 1 + 1] == Next(states[i - 1], steps[i - 1]);
      RunKeepsPlain(states, steps, repaired, i - 1, side);
      FlightsWereSent(states, steps, repaired, i - 1, side);
      StepKeepsPlain(states[i - 1], steps[i - 1], side);
    }
  }

  // -------------------------------------------------------------------- results

  /** In every run, wraps included, everything handed over unreliably was sent so by
      the peer. */
  lemma OnlyWhatWasSent(states: seq<System>, steps: seq<Step>, repaired: bool, side: Side, h: Plain)
    requires IsRun(states, steps, repaired) && h in states[|steps|].Peer(side).handedPlain
    ensures Genuine(states[|steps|].Self(side), states[|steps|].Peer(side), h)
  {
    RunKeepsPlain(states, steps, repaired, |steps|, side);
  }

  /** A packet sent unreliably is handed over whenever it arrives and its wire sequence
      is none of the last 128 taken as new; nothing else adds to what is handed over. */
  lemma HandedOverExactly(states: seq<System>, steps: seq<Step>, repaired: bool, i: nat, side: Side)
    requires IsRun(states, steps, repaired) && i < |steps|
    ensures var y, y', step := states[i].Peer(side), states[i + 1].Peer(side), steps[i];
            if step.DoReceive? && step.side != side && IsNew(y, step.flight.packet)
               && step.flight.packet.header.channel == CHANNEL_UNRELIABLE
            then y'.handedPlain == y.handedPlain + [Plain(|y.arrivals|, step.flight.packet.payload)]
            else y'.handedPlain == y.handedPlain
  {
    var s, step := states[i], steps[i];
    assert Enabled(s, step) && states[i + 1] == Next(s, step);
    RunKeepsPlain(states, steps, repaired, i, side);
    if step.DoReceive? && step.side != side {
      ReceiptHandsOver(s.Peer(side), step.flight.packet);
    } else if step.DoSend? || step.DoResend? {
      EmitLeavesReceiver(s, step);
    }
  }

  /** And no wire sequence is handed over twice with fewer than 128 others taken as
      new in between. */
  lemma NotTwiceSoon(states: seq<System>, steps: seq<Step>, repaired: bool, side: Side, i: nat, j: nat)
    requires IsRun(states, steps, repaired)
    requires var y := states[|steps|].Peer(side);
             && i < j < |y.handedPlain| && y.handedPlain[j].at < |y.arrivals| && y.handedPlain[i].at < |y.arrivals|
             && y.arrivals[y.handedPlain[i].at] == y.arrivals[y.handedPlain[j].at]
    ensures var y := states[|steps|].Peer(side); y.handedPlain[j].at - y.handedPlain[i].at - 1 >= MAX_RECENT
  {
    RunKeepsPlain(states, steps, repaired, |steps|, side);
  }
}
