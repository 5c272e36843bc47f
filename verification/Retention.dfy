/** What the sender keeps: a queued message stays pending until `process_ack`
    reports the wire sequence it was first sent with. */
module Retention {
  import opened Serial
  import opened Tracking
  import opened Protocol
  import opened Connection
  import opened Network

  ghost predicate TrackedInv(x: Party) {
    && (forall i :: 0 <= i < |x.end.tracked| ==> x.end.tracked[i].sequence < |x.wires|)
    && DistinctSequences(x.end.tracked)
    && (forall q :: q in x.reported ==> q < |x.wires| && !Unacked(x.end.tracked, q))
    && (forall i, j :: 0 <= i < j < |x.reported| ==> x.reported[i] != x.reported[j])
  }

  ghost predicate WireInv(x: Party) {
    && x.end.sendSequence == |x.wires|
    && x.end.nextReliableSeq == Residue16(|x.reliable.messages|)
    && x.end.nextOrderedSeq == Residue16(|x.ordered.messages|)
    && (forall w :: w in x.end.inflight ==>
          w < |x.wires| && x.end.inflight[w] == x.wires[w] && IsQueued(x.wires[w].channel))
    && TrackedInv(x)
  }

  /** Sequence `c` of the channel has an inflight entry that points back to it. */
  predicate PointsBack(inflight: map<u32, Slot>, original: seq<nat>, channel: u8, c: u16) {
    c < |original| && original[c] in inflight.Keys && inflight[original[c]] == Slot(channel, c)
  }

  predicate OriginalsOk(original: seq<nat>, wires: seq<Slot>, channel: u8) {
    forall c: u16 :: c < |original| ==> original[c] < |wires| && wires[original[c]] == Slot(channel, c)
  }

  predicate PendingOk(pending: map<u16, Pending>, box: Outbox, inflight: map<u32, Slot>, channel: u8) {
    forall c :: c in pending ==>
      c < |box.messages| && pending[c].payload == box.messages[c] && PointsBack(inflight, box.original, channel, c)
  }

  predicate SlotsOk(wires: seq<Slot>, channel: u8, count: nat) {
    forall w :: 0 <= w < |wires| && wires[w].channel == channel ==> wires[w].seqNo < count
  }

  /** A tracked wire sequence is the original one of the message it carried. */
  predicate TrackedOk(p: Tracked, wires: seq<Slot>, original: seq<nat>, channel: u8) {
    p.sequence < |wires| &&
    (wires[p.sequence].channel == channel ==>
       wires[p.sequence].seqNo < |original| && original[wires[p.sequence].seqNo] == p.sequence)
  }

  ghost predicate ChannelInv(x: Party, channel: u8) {
    var box := Box(x, channel);
    && |box.original| == |box.messages|
    && OriginalsOk(box.original, x.wires, channel)
    && PendingOk(PendingOf(x.end, channel), box, x.end.inflight, channel)
    && SlotsOk(x.wires, channel, |box.messages|)
    && forall p :: p in x.end.tracked ==> TrackedOk(p, x.wires, box.original, channel)
  }

  ghost predicate SenderInv(x: Party) {
    WireInv(x) && ChannelInv(x, CHANNEL_RELIABLE) && ChannelInv(x, CHANNEL_ORDERED)
  }

  // ------------------------------------------------------------------ sending

  lemma TrackKeeps(x: Party, x': Party)
    requires TrackedInv(x) && |x'.wires| == |x.wires| + 1 && |x.wires| < POW32
    requires x'.end.tracked == Track(x.end.tracked, |x.wires|) && x'.reported == x.reported
    ensures TrackedInv(x')
  {
    var t, t' := x.end.tracked, x'.end.tracked;
    var shift := |t| + 1 - |t'|;
    forall i | 0 <= i < |t'| - 1 ensures t'[i] == t[i + shift] {}
    forall q | q in x'.reported ensures !Unacked(t', q) {
      forall i | 0 <= i < |t'| ensures t'[i] != Tracked(q, false) {
        if i < |t'| - 1 { assert t'[i] == t[i + shift]; }
      }
    }
  }

  lemma TrackAdds(tracked: seq<Tracked>, w: u32, p: Tracked)
    requires p in Track(tracked, w)
    ensures p in tracked || p == Tracked(w, false)
  {
  }

  /** One more wire sequence, carrying a new message of the channel. */
  lemma QueueKeepsChannel(x: Party, x': Party, channel: u8, payload: PacketType, now: nat)
    requires ChannelInv(x, channel) && |x.wires| < MAX32 && |Box(x, channel).messages| < POW16
    requires var n: u16 := |Box(x, channel).messages|;
             && x'.wires == x.wires + [Slot(channel, n)]
             && x'.end.inflight == x.end.inflight[|x.wires| := Slot(channel, n)]
             && Box(x', channel) == AppendMessage(Box(x, channel), payload, |x.wires|)
             && PendingOf(x'.end, channel) == PendingOf(x.end, channel)[n := Pending(payload, now)]
             && x'.end.tracked == Track(x.end.tracked, |x.wires|)
    requires forall w :: w in x.end.inflight ==> w < |x.wires|
    ensures ChannelInv(x', channel)
  {
    forall p | p in x'.end.tracked ensures TrackedOk(p, x'.wires, Box(x', channel).original, channel) {
      TrackAdds(x.end.tracked, |x.wires|, p);
      if p in x.end.tracked { assert TrackedOk(p, x.wires, Box(x, channel).original, channel); }
    }
  }

  /** One more wire sequence that carries nothing new for the channel: another
      channel's packet, or a resend, which is not tracked. */
  lemma ExtendKeepsChannel(x: Party, x': Party, channel: u8, slot: Slot)
    requires ChannelInv(x, channel) && |x.wires| < MAX32
    requires x'.wires == x.wires + [slot] && Box(x', channel) == Box(x, channel)
    requires slot.channel == channel ==> slot.seqNo < |Box(x, channel).messages|
    requires x'.end.inflight == x.end.inflight || x'.end.inflight == x.end.inflight[|x.wires| := slot]
    requires forall w :: w in x.end.inflight ==> w < |x.wires|
    requires PendingOf(x'.end, channel).Keys == PendingOf(x.end, channel).Keys
    requires forall c :: c in PendingOf(x.end, channel) ==>
               PendingOf(x'.end, channel)[c].payload == PendingOf(x.end, channel)[c].payload
    requires x'.end.tracked == x.end.tracked ||
             (slot.channel != channel && x'.end.tracked == Track(x.end.tracked, |x.wires|))
    ensures ChannelInv(x', channel)
  {
    forall p | p in x'.end.tracked ensures TrackedOk(p, x'.wires, Box(x', channel).original, channel) {
      if x'.end.tracked != x.end.tracked { TrackAdds(x.end.tracked, |x.wires|, p); }
      if p in x.end.tracked { assert TrackedOk(p, x.wires, Box(x, channel).original, channel); }
    }
  }

  lemma SendKeeps(x: Party, payload: PacketType, reliability: Reliability, now: nat)
    requires SenderInv(x) && NoWrap(PartySend(x, payload, reliability, now).0)
    ensures SenderInv(PartySend(x, payload, reliability, now).0)
  {
    SendKeepsWire(x, payload, reliability, now);
    SendKeepsChannels(x, payload, reliability, now);
  }

  lemma SendKeepsWire(x: Party, payload: PacketType, reliability: Reliability, now: nat)
    requires WireInv(x) && NoWrap(PartySend(x, payload, reliability, now).0)
    ensures WireInv(PartySend(x, payload, reliability, now).0)
  {
    var x' := PartySend(x, payload, reliability, now).0;
    assert x'.wires == x.wires + [NextSlot(x.end, reliability)];
    TrackKeeps(x, x');
  }

  lemma SendKeepsChannels(x: Party, payload: PacketType, reliability: Reliability, now: nat)
    requires SenderInv(x) && NoWrap(PartySend(x, payload, reliability, now).0)
    ensures var x' := PartySend(x, payload, reliability, now).0;
            ChannelInv(x', CHANNEL_RELIABLE) && ChannelInv(x', CHANNEL_ORDERED)
  {
    var x' := PartySend(x, payload, reliability, now).0;
    var slot := NextSlot(x.end, reliability);
    assert x'.wires == x.wires + [slot];
    match reliability {
      case Unreliable =>
        ExtendKeepsChannel(x, x', CHANNEL_RELIABLE, slot);
        ExtendKeepsChannel(x, x', CHANNEL_ORDERED, slot);
      case Reliable =>
        QueueKeepsChannel(x, x', CHANNEL_RELIABLE, payload, now);
        ExtendKeepsChannel(x, x', CHANNEL_ORDERED, slot);
      case Ordered =>
        ExtendKeepsChannel(x, x', CHANNEL_RELIABLE, slot);
        QueueKeepsChannel(x, x', CHANNEL_ORDERED, payload, now);
    }
  }

  lemma ResendKeeps(x: Party, channel: u8, c: u16, now: nat)
    requires SenderInv(x) && IsQueued(channel) && c in PendingOf(x.end, channel)
    requires NoWrap(PartyResend(x, channel, c, now).0)
    ensures SenderInv(PartyResend(x, channel, c, now).0)
  {
    ResendKeepsWire(x, channel, c, now);
    ResendKeepsChannel(x, channel, c, now, CHANNEL_RELIABLE);
    ResendKeepsChannel(x, channel, c, now, CHANNEL_ORDERED);
  }

  lemma ResendKeepsWire(x: Party, channel: u8, c: u16, now: nat)
    requires WireInv(x) && IsQueued(channel) && c in PendingOf(x.end, channel)
    requires NoWrap(PartyResend(x, channel, c, now).0)
    ensures WireInv(PartyResend(x, channel, c, now).0)
  {
    var x' := PartyResend(x, channel, c, now).0;
    assert x'.wires == x.wires + [Slot(channel, c)];
  }

  lemma ResendKeepsChannel(x: Party, channel: u8, c: u16, now: nat, other: u8)
    requires WireInv(x) && IsQueued(channel) && c in PendingOf(x.end, channel) && IsQueued(other)
    requires ChannelInv(x, channel) && ChannelInv(x, other)
    requires NoWrap(PartyResend(x, channel, c, now).0)
    ensures ChannelInv(PartyResend(x, channel, c, now).0, other)
  {
    var x' := PartyResend(x, channel, c, now).0;
    assert x'.wires == x.wires + [Slot(channel, c)];
    ExtendKeepsChannel(x, x', other, Slot(channel, c));
  }

  // ---------------------------------------------------------------- releasing

  /** Some released wire sequence carried this slot. */
  ghost predicate Released(e: Endpoint, wires: seq<u32>, slot: Slot) {
    exists q :: q in wires && q in e.inflight && e.inflight[q] == slot
  }

  lemma {:induction false} ReleaseAllEffect(e: Endpoint, wires: seq<u32>)
    ensures var e' := ReleaseAll(e, wires);
            && e' == e.(inflight := e'.inflight, pendingReliable := e'.pendingReliable,
                        pendingOrdered := e'.pendingOrdered)
            && (forall w :: w in e'.inflight <==> w in e.inflight && w !in wires)
            && (forall w :: w in e'.inflight ==> e'.inflight[w] == e.inflight[w])
  {
    if wires == [] {
    } else {
      ReleaseAllEffect(e, wires[..|wires| - 1]);
      assert wires == wires[..|wires| - 1] + [wires[|wires| - 1]];
    }
  }

  lemma {:induction false} ReleaseAllPending(e: Endpoint, wires: seq<u32>, channel: u8, c: u16)
    requires IsQueued(channel)
    ensures var before, after := PendingOf(e, channel), PendingOf(ReleaseAll(e, wires), channel);
            && (c in after <==> c in before && !Released(e, wires, Slot(channel, c)))
            && (c in after ==> after[c] == before[c])
  {
    if wires == [] {
    } else {
      var front, q := wires[..|wires| - 1], wires[|wires| - 1];
      assert wires == front + [q];
      ReleaseAllPending(e, front, channel, c);
      ReleaseAllEffect(e, front);
      if Released(e, wires, Slot(channel, c)) && !Released(e, front, Slot(channel, c)) {
        assert q in e.inflight && e.inflight[q] == Slot(channel, c) && q !in front;
      }
    }
  }

  /** A reported wire sequence is the original one of the message it carried. */
  lemma ReportedIsOriginal(x: Party, ack: u32, bits: Word32, q: u32, channel: u8)
    requires WireInv(x) && ChannelInv(x, channel)
    requires q in Reported(x.end.tracked, ack, bits)
    ensures q < |x.wires|
    ensures x.wires[q].channel == channel ==>
              x.wires[q].seqNo < |Box(x, channel).original| && Box(x, channel).original[x.wires[q].seqNo] == q
  {
    ReportedExactly(x.end.tracked, ack, bits, q);
    assert Tracked(q, false) in x.end.tracked;
    assert TrackedOk(Tracked(q, false), x.wires, Box(x, channel).original, channel);
  }

  /** An ack takes a message off the pending map exactly when it reports the
      wire sequence the message was first sent with. */
  lemma AckReleases(x: Party, ack: u32, bits: Word32, channel: u8, c: u16)
    requires WireInv(x) && ChannelInv(x, channel) && IsQueued(channel)
    ensures var before, after := PendingOf(x.end, channel), PendingOf(ApplyAcks(x.end, ack, bits), channel);
            && (c in after <==>
                c in before && Box(x, channel).original[c] !in Reported(x.end.tracked, ack, bits))
            && (c in after ==> after[c] == before[c])
  {
    var wires := Reported(x.end.tracked, ack, bits);
    var e := x.end.(tracked := DropAcked(Marked(x.end.tracked, ack, bits)));
    ReleaseAllPending(e, wires, channel, c);
    if c in PendingOf(x.end, channel) {
      assert PointsBack(x.end.inflight, Box(x, channel).original, channel, c);
      if Released(e, wires, Slot(channel, c)) {
        var q :| q in wires && q in e.inflight && e.inflight[q] == Slot(channel, c);
        ReportedIsOriginal(x, ack, bits, q, channel);
      }
    }
  }

  lemma AckKeepsTracked(x: Party, x': Party, ack: u32, bits: Word32)
    requires TrackedInv(x) && x'.wires == x.wires
    requires x'.end.tracked == DropAcked(Marked(x.end.tracked, ack, bits))
    requires x'.reported == x.reported + Reported(x.end.tracked, ack, bits)
    ensures TrackedInv(x')
  {
    var t, t', r := x.end.tracked, x'.end.tracked, Reported(x.end.tracked, ack, bits);
    AckKeepsSequences(t, ack, bits);
    ReportedOnce(t, ack, bits);
    forall q | q in x'.reported ensures q < |x.wires| && !Unacked(t', q) {
      AckClears(t, ack, bits, q);
      ReportedExactly(t, ack, bits, q);
    }
    forall i, j | 0 <= i < j < |x'.reported| ensures x'.reported[i] != x'.reported[j] {
      if i < |x.reported| <= j {
        assert x.reported[i] in x.reported;
        ReportedExactly(t, ack, bits, x'.reported[j]);
      }
    }
  }

  lemma AckKeepsTrackedOk(x: Party, ack: u32, bits: Word32, channel: u8, p: Tracked)
    requires ChannelInv(x, channel) && p in DropAcked(Marked(x.end.tracked, ack, bits))
    ensures TrackedOk(p, x.wires, Box(x, channel).original, channel)
  {
    var t, t' := x.end.tracked, DropAcked(Marked(x.end.tracked, ack, bits));
    AckKeepsSequences(t, ack, bits);
    var i :| 0 <= i < |t'| && t'[i] == p;
    assert TrackedOk(t[i + |t| - |t'|], x.wires, Box(x, channel).original, channel);
  }

  lemma AckKeepsPendingOk(x: Party, ack: u32, bits: Word32, channel: u8)
    requires WireInv(x) && ChannelInv(x, channel) && IsQueued(channel)
    ensures var e := ApplyAcks(x.end, ack, bits);
            PendingOk(PendingOf(e, channel), Box(x, channel), e.inflight, channel)
  {
    var e := ApplyAcks(x.end, ack, bits);
    var original := Box(x, channel).original;
    AckLeaves(x.end, ack, bits);
    forall c | c in PendingOf(e, channel)
      ensures c in PendingOf(x.end, channel) && PendingOf(e, channel)[c] == PendingOf(x.end, channel)[c]
      ensures PointsBack(e.inflight, original, channel, c)
    {
      AckReleases(x, ack, bits, channel, c);
      assert PointsBack(x.end.inflight, original, channel, c);
    }
  }

  lemma AckKeepsChannel(x: Party, x': Party, ack: u32, bits: Word32, channel: u8)
    requires WireInv(x) && ChannelInv(x, channel) && IsQueued(channel)
    requires x'.wires == x.wires && Box(x', channel) == Box(x, channel)
    requires var e := ApplyAcks(x.end, ack, bits);
             x'.end.tracked == e.tracked && x'.end.inflight == e.inflight
             && PendingOf(x'.end, channel) == PendingOf(e, channel)
    ensures ChannelInv(x', channel)
  {
    AckLeaves(x.end, ack, bits);
    AckKeepsPendingOk(x, ack, bits, channel);
    forall p | p in x'.end.tracked ensures TrackedOk(p, x.wires, Box(x, channel).original, channel) {
      AckKeepsTrackedOk(x, ack, bits, channel, p);
    }
  }

  /** What acks leave alone, and what they take out of the inflight map. */
  lemma AckLeaves(e: Endpoint, ack: u32, bits: Word32)
    ensures var e' := ApplyAcks(e, ack, bits);
            && e' == e.(tracked := DropAcked(Marked(e.tracked, ack, bits)), inflight := e'.inflight,
                        pendingReliable := e'.pendingReliable, pendingOrdered := e'.pendingOrdered)
            && (forall w :: w in e'.inflight <==> w in e.inflight && w !in Reported(e.tracked, ack, bits))
            && (forall w :: w in e'.inflight ==> e'.inflight[w] == e.inflight[w])
  {
    ReleaseAllEffect(e.(tracked := DropAcked(Marked(e.tracked, ack, bits))), Reported(e.tracked, ack, bits));
  }

  /** Delivery touches the receiving half only. */
  lemma DeliverLeaves(e: Endpoint, slot: Slot, payload: PacketType)
    ensures var e' := Deliver(e, slot, payload).0;
            e' == e.(reliableHistory := e'.reliableHistory, nextExpectedOrdered := e'.nextExpectedOrdered,
                     orderedBuffer := e'.orderedBuffer)
  {
  }

  lemma ReceiveOnSender(p: Party, packet: Packet)
    ensures var e, e' := ApplyAcks(p.end, packet.header.ack, packet.header.ackBitfield), PartyReceive(p, packet).end;
            e' == e.(receiver := e'.receiver, reliableHistory := e'.reliableHistory,
                     nextExpectedOrdered := e'.nextExpectedOrdered, orderedBuffer := e'.orderedBuffer)
  {
    var h := packet.header;
    var e := ApplyAcks(p.end, h.ack, h.ackBitfield);
    DeliverLeaves(e.(receiver := Record(e.receiver, h.sequence)), SlotOf(packet), packet.payload);
  }

  lemma ReceiveKeeps(x: Party, packet: Packet)
    requires SenderInv(x)
    ensures SenderInv(PartyReceive(x, packet))
  {
    var x' := PartyReceive(x, packet);
    var h := packet.header;
    ReceiveOnSender(x, packet);
    AckLeaves(x.end, h.ack, h.ackBitfield);
    AckKeepsTracked(x, x', h.ack, h.ackBitfield);
    AckKeepsChannel(x, x', h.ack, h.ackBitfield, CHANNEL_RELIABLE);
    AckKeepsChannel(x, x', h.ack, h.ackBitfield, CHANNEL_ORDERED);
  }

  // --------------------------------------------------------------------- runs

  lemma StepKeeps(s: System, step: Step, side: Side)
    requires Enabled(s, step) && SenderInv(s.Self(side)) && NoWrap(Next(s, step).Self(side))
    ensures SenderInv(Next(s, step).Self(side))
  {
    if step.side == side {
      match step
      case DoSend(_, payload, reliability, now) => SendKeeps(s.Self(side), payload, reliability, now);
      case DoResend(_, channel, c, now) => ResendKeeps(s.Self(side), channel, c, now);
      case DoReceive(_, f) => ReceiveKeeps(s.Self(side), f.packet);
      case DoLose(_, _) =>
    }
  }

  lemma {:induction false} RunKeepsSender(states: seq<System>, steps: seq<Step>, repaired: bool, i: nat, side: Side)
    requires IsRun(states, steps, repaired) && i <= |steps| && NoWrap(states[i].Self(side))
    ensures SenderInv(states[i].Self(side))
  {
    if i == 0 {
    } else {
      assert Enabled(states[i - 1], steps[i - 1]) && states[i - 1 + 1] == Next(states[i - 1], steps[i - 1]);
      NoWrapEarlier(states[i - 1], steps[i - 1], side);
      RunKeepsSender(states, steps, repaired, i - 1, side);
      StepKeeps(states[i - 1], steps[i - 1], side);
    }
  }

  /** In every run without wrap, every pending message has an inflight entry
      pointing back to it on its own channel, and no wire sequence is reported
      twice. */
  lemma PendingIsInflight(states: seq<System>, steps: seq<Step>, repaired: bool, side: Side, channel: u8)
    requires IsRun(states, steps, repaired) && IsQueued(channel)
    requires NoWrap(states[|steps|].Self(side))
    ensures var x := states[|steps|].Self(side);
            && (forall c :: c in PendingOf(x.end, channel) ==>
                  PointsBack(x.end.inflight, Box(x, channel).original, channel, c))
            && (forall i, j :: 0 <= i < j < |x.reported| ==> x.reported[i] != x.reported[j])
  {
    RunKeepsSender(states, steps, repaired, |steps|, side);
  }

  /** A message leaves its pending map only on receiving a packet whose ack
      reports the wire sequence the message was first sent with, and then it
      always does. Resends change nothing: no ack of a resend releases anything. */
  lemma LeavesOnlyByAck(states: seq<System>, steps: seq<Step>, repaired: bool, i: nat, side: Side, channel: u8, c: u16)
    requires IsRun(states, steps, repaired) && i < |steps| && IsQueued(channel)
    requires NoWrap(states[i + 1].Self(side)) && c in PendingOf(states[i].Self(side).end, channel)
    ensures var x := states[i].Self(side);
            c !in PendingOf(states[i + 1].Self(side).end, channel) <==>
            && steps[i].DoReceive? && steps[i].side == side
            && c < |Box(x, channel).original|
            && var h := steps[i].flight.packet.header;
               Box(x, channel).original[c] in Reported(x.end.tracked, h.ack, h.ackBitfield)
  {
    NoWrapEarlier(states[i], steps[i], side);
    RunKeepsSender(states, steps, repaired, i, side);
    StepReleases(states[i], steps[i], side, channel, c);
  }

  lemma OthersKeepPending(s: System, step: Step, side: Side, channel: u8, c: u16)
    requires Enabled(s, step) && IsQueued(channel) && (step.side != side || !step.DoReceive?)
    requires c in PendingOf(s.Self(side).end, channel)
    ensures c in PendingOf(Next(s, step).Self(side).end, channel)
  {
  }

  lemma StepReleases(s: System, step: Step, side: Side, channel: u8, c: u16)
    requires Enabled(s, step) && IsQueued(channel) && SenderInv(s.Self(side))
    requires c in PendingOf(s.Self(side).end, channel)
    ensures var x := s.Self(side);
            c !in PendingOf(Next(s, step).Self(side).end, channel) <==>
            && step.DoReceive? && step.side == side
            && c < |Box(x, channel).original|
            && var h := step.flight.packet.header;
               Box(x, channel).original[c] in Reported(x.end.tracked, h.ack, h.ackBitfield)
  {
    var x := s.Self(side);
    assert PointsBack(x.end.inflight, Box(x, channel).original, channel, c);
    if step.side != side || !step.DoReceive? {
      OthersKeepPending(s, step, side, channel, c);
    } else {
      var packet := step.flight.packet;
      ReceiveOnSender(x, packet);
      AckReleases(x, packet.header.ack, packet.header.ackBitfield, channel, c);
    }
  }
}
