/** When acknowledgements tell the truth, so that nothing is lost.

    The code's bitfield recurrence is sound as long as no arrival jumps ahead by
    2 to 32, but a tracker that has heard nothing reports sequence 0. So either
    the side whose messages are at stake leads with an unqueued packet, as the
    client does with its connection request, or its peer waits to hear from it
    before sending. Each guard looks at one endpoint's own state before its own
    call. The intended recurrence needs none. */
module AckDiscipline {
  import opened Serial
  import opened Tracking
  import opened Protocol
  import opened Connection
  import opened Network
  import opened OrderedDelivery
  import opened NoLoss
  import Retention

  datatype Discipline = LeadUnqueued | WaitToHear | Intended

  /** What `side`'s packets and its peer's receipts must satisfy so that `side`
      loses nothing. The peer's own packets are free under `LeadUnqueued`. */
  predicate Allowed(d: Discipline, s: System, step: Step, side: Side) {
    var x, y := s.Self(side), s.Peer(side);
    match d
    case LeadUnqueued =>
      && (step.DoSend? && step.side == side && x.end.sendSequence == 0 ==> step.reliability == Unreliable)
      && (step.DoReceive? && step.side != side ==> JumpOk(y.end.receiver, step.flight.packet.header.sequence))
    case WaitToHear =>
      && ((step.DoSend? || step.DoResend?) && step.side != side ==> y.end.receiver.recent != [])
      && (step.DoReceive? && step.side != side ==>
            var w := step.flight.packet.header.sequence;
            if y.end.receiver.recent == [] then FirstOk(w) else JumpOk(y.end.receiver, w))
    case Intended => true
  }

  /** What the peer may claim without having recorded it. */
  function Excused(d: Discipline): set<u32> {
    match d
    case LeadUnqueued => {0}
    case WaitToHear => {}
    case Intended => {MAX32}
  }

  function Believed(d: Discipline, y: Party): set<u32> { y.recorded + Excused(d) }

  ghost predicate ClaimsWithin(f: Flight, believed: set<u32>) {
    forall q: u32 :: Claims(f.packet.header.ack, f.packet.header.ackBitfield, q) ==> q in believed
  }

  ghost predicate HeardNothing(y: Party) {
    y.end.receiver == FreshReceiver(false) && y.recorded == {}
  }

  ghost predicate TruthInv(d: Discipline, s: System, side: Side) {
    var x, y := s.Self(side), s.Peer(side);
    && y.end.receiver.repaired == d.Intended?
    && x.end.sendSequence == Residue32(|x.wires|)
    && (d.LeadUnqueued? && |x.wires| > 0 ==> !IsQueued(x.wires[0].channel))
    && (|| (d.WaitToHear? && HeardNothing(y) && s.Inbox(side) == {})
        || (Sound(y.end.receiver, Believed(d, y)) && (d.WaitToHear? ==> y.end.receiver.recent != [])
            && forall g :: g in s.Inbox(side) ==> ClaimsWithin(g, Believed(d, y))))
  }

  lemma SoundGrows(t: Receiver, small: set<u32>, large: set<u32>)
    requires Sound(t, small) && small <= large
    ensures Sound(t, large)
  {
  }

  lemma FreshClaims(repaired: bool)
    ensures Sound(FreshReceiver(repaired), {if repaired then MAX32 else 0})
  {
    assert forall i :: 0 <= i < 32 ==> !Zero()[i];
  }

  lemma ReceiveRecords(y: Party, packet: Packet)
    ensures PartyReceive(y, packet).end.receiver == Record(y.end.receiver, packet.header.sequence)
    ensures PartyReceive(y, packet).recorded == y.recorded + {packet.header.sequence}
    ensures PartyReceive(y, packet).wires == y.wires
    ensures PartyReceive(y, packet).end.sendSequence == y.end.sendSequence
  {
    ReceiveTakes(y, packet);
    Retention.ReceiveOnSender(y, packet);
    Retention.AckLeaves(y.end, packet.header.ack, packet.header.ackBitfield);
  }

  lemma PeerReceiptKeepsTruth(d: Discipline, s: System, step: Step, side: Side)
    requires step.DoReceive? && step.side != side && Enabled(s, step)
    requires Allowed(d, s, step, side) && TruthInv(d, s, side)
    ensures TruthInv(d, Next(s, step), side)
  {
    var w, y, y' := step.flight.packet.header.sequence, s.Peer(side), Next(s, step).Peer(side);
    ReceiveRecords(y, step.flight.packet);
    if d.WaitToHear? && y.end.receiver.recent == [] {
      FirstArrival(w);
      assert Believed(d, y') == {w};
    } else {
      RecordSound(y.end.receiver, Believed(d, y), w);
      assert Believed(d, y') == Believed(d, y) + {w};
      forall g | g in s.Inbox(side) ensures ClaimsWithin(g, Believed(d, y')) {
        assert ClaimsWithin(g, Believed(d, y));
      }
    }
  }

  /** `side` sends: its first wire sequence settles what 0 carries. */
  lemma OwnSendKeepsTruth(d: Discipline, s: System, step: Step, side: Side)
    requires (step.DoSend? || step.DoResend?) && step.side == side && Enabled(s, step)
    requires Allowed(d, s, step, side) && TruthInv(d, s, side)
    requires |s.Self(side).wires| == 0 ==> step.DoSend?
    ensures TruthInv(d, Next(s, step), side)
  {
    StepGrows(s, step);
    var x, p := s.Self(side), Next(s, step).Self(side);
    if |x.wires| > 0 { assert p.wires[..|x.wires|][0] == p.wires[0]; }
  }

  lemma PeerSendKeepsTruth(d: Discipline, s: System, step: Step, side: Side)
    requires (step.DoSend? || step.DoResend?) && step.side != side && Enabled(s, step)
    requires Allowed(d, s, step, side) && TruthInv(d, s, side)
    ensures TruthInv(d, Next(s, step), side)
  {
    StepGrows(s, step);
    var y, p := s.Peer(side), Next(s, step).Peer(side);
    forall g | g in Next(s, step).Inbox(side) ensures ClaimsWithin(g, Believed(d, p)) {
      if g in s.Inbox(side) {
        assert ClaimsWithin(g, Believed(d, y));
      } else {
        StampedByPeer(s, step, side, g);
      }
    }
  }

  lemma StampedByPeer(s: System, step: Step, side: Side, g: Flight)
    requires (step.DoSend? || step.DoResend?) && step.side != side && Enabled(s, step)
    requires g in Next(s, step).Inbox(side) && g !in s.Inbox(side)
    ensures StampedBy(g, s.Peer(side).end.receiver)
  {
    var y := s.Peer(side);
    match step
    case DoSend(_, payload, reliability, now) => SendGrows(y, payload, reliability, now);
    case DoResend(_, channel, c, now) => ResendGrows(y, channel, c, now);
  }

  lemma StepKeepsTruth(d: Discipline, s: System, step: Step, side: Side)
    requires Enabled(s, step) && Allowed(d, s, step, side) && TruthInv(d, s, side)
    requires s.Self(side).wires == [] ==>
               s.Self(side).end.pendingReliable == map[] && s.Self(side).end.pendingOrdered == map[]
    ensures TruthInv(d, Next(s, step), side)
  {
    if step.DoSend? || step.DoResend? {
      if step.side == side { OwnSendKeepsTruth(d, s, step, side); } else { PeerSendKeepsTruth(d, s, step, side); }
    } else if step.DoReceive? {
      if step.side == side {
        ReceiveRecords(s.Self(side), step.flight.packet);
      } else {
        PeerReceiptKeepsTruth(d, s, step, side);
      }
    } else {
      assert Next(s, step).Inbox(side) <= s.Inbox(side);
    }
  }

  lemma NothingPendingAtFirst(x: Party)
    requires Retention.SenderInv(x)
    ensures x.wires == [] ==> x.end.pendingReliable == map[] && x.end.pendingOrdered == map[]
  {
    forall c: u16 | x.wires == [] ensures c !in x.end.pendingReliable && c !in x.end.pendingOrdered {
      assert c in x.end.pendingReliable ==>
        Retention.PointsBack(x.end.inflight, x.reliable.original, CHANNEL_RELIABLE, c);
      assert c in x.end.pendingOrdered ==>
        Retention.PointsBack(x.end.inflight, x.ordered.original, CHANNEL_ORDERED, c);
    }
  }

  lemma {:induction false} RunKeepsTruth(d: Discipline, states: seq<System>, steps: seq<Step>, i: nat, side: Side)
    requires IsRun(states, steps, d.Intended?) && i <= |steps| && NoWrap(states[i].Self(side))
    requires forall j :: 0 <= j < i ==> Allowed(d, states[j], steps[j], side)
    ensures TruthInv(d, states[i], side)
  {
    if i == 0 {
      TrueAtStart(d, side);
    } else {
      var s, step := states[i - 1], steps[i - 1];
      assert Enabled(s, step) && states[i - 1 + 1] == Next(s, step);
      NoWrapEarlier(s, step, side);
      RunKeepsTruth(d, states, steps, i - 1, side);
      Retention.RunKeepsSender(states, steps, d.Intended?, i - 1, side);
      NothingPendingAtFirst(s.Self(side));
      StepKeepsTruth(d, s, step, side);
    }
  }

  lemma TrueAtStart(d: Discipline, side: Side)
    ensures TruthInv(d, Start(d.Intended?), side)
  {
    FreshClaims(d.Intended?);
    if !d.WaitToHear? {
      SoundGrows(FreshReceiver(d.Intended?), {if d.Intended? then MAX32 else 0}, {} + Excused(d));
    }
  }

  lemma TruthIsTruthful(d: Discipline, s: System, step: Step, side: Side, channel: u8)
    requires TruthInv(d, s, side) && Enabled(s, step) && NoWrap(s.Self(side)) && IsQueued(channel)
    ensures TruthfulReceipt(s, step, side, channel)
  {
    if step.DoReceive? && step.side == side {
      assert ClaimsWithin(step.flight, Believed(d, s.Peer(side)));
    }
  }

  /** Ack soundness over whole runs: whatever is lost, repeated or reordered, a
      disciplined run has no receipt that claims what did not arrive. */
  lemma AcksAreSound(d: Discipline, states: seq<System>, steps: seq<Step>, side: Side, channel: u8)
    requires IsRun(states, steps, d.Intended?) && NoWrap(states[|steps|].Self(side)) && IsQueued(channel)
    requires forall j :: 0 <= j < |steps| ==> Allowed(d, states[j], steps[j], side)
    ensures forall j :: 0 <= j < |steps| ==> TruthfulReceipt(states[j], steps[j], side, channel)
  {
    forall j | 0 <= j < |steps| ensures TruthfulReceipt(states[j], steps[j], side, channel) {
      assert Enabled(states[j], steps[j]);
      NoWrapBefore(states, steps, d.Intended?, j, side);
      RunKeepsTruth(d, states, steps, j, side);
      TruthIsTruthful(d, states[j], steps[j], side, channel);
    }
  }

  /** No loss for the code as written. A side that leads with an unqueued packet,
      or whose peer waits to hear from it, loses nothing as long as no packet that
      reaches the peer jumps ahead by 2 to 32; on the reliable channel nothing
      else is asked, on the ordered one that no packet arrives half the range
      ahead. */
  lemma NothingIsLostAsWritten(
    d: Discipline, states: seq<System>, steps: seq<Step>, side: Side, channel: u8, c: u16)
    requires !d.Intended? && IsRun(states, steps, false) && NoWrap(states[|steps|].Self(side)) && IsQueued(channel)
    requires forall j :: 0 <= j < |steps| ==> Allowed(d, states[j], steps[j], side)
    requires channel == CHANNEL_ORDERED ==> forall j :: 0 <= j < |steps| ==> NotFarAhead(states[j], steps[j], side)
    ensures Kept(states[|steps|].Self(side), states[|steps|].Peer(side), channel, c)
  {
    AcksAreSound(d, states, steps, side, channel);
    NothingIsLost(states, steps, false, side, channel, c);
  }

  /** No loss for the intended recurrence: in every run before the wrap. */
  lemma NothingIsLostRepaired(states: seq<System>, steps: seq<Step>, side: Side, channel: u8, c: u16)
    requires IsRun(states, steps, true) && NoWrap(states[|steps|].Self(side)) && IsQueued(channel)
    requires channel == CHANNEL_ORDERED ==> forall j :: 0 <= j < |steps| ==> NotFarAhead(states[j], steps[j], side)
    ensures Kept(states[|steps|].Self(side), states[|steps|].Peer(side), channel, c)
  {
    AcksAreSound(Intended, states, steps, side, channel);
    NothingIsLost(states, steps, true, side, channel, c);
  }

  /** With at most 2^15 ordered messages none can arrive half the range ahead. */
  lemma FewStayClose(states: seq<System>, steps: seq<Step>, repaired: bool, side: Side)
    requires IsRun(states, steps, repaired) && NoWrap(states[|steps|].Self(side))
    requires |states[|steps|].Self(side).ordered.messages| <= HALF16 + 1
    ensures forall j :: 0 <= j < |steps| ==> NotFarAhead(states[j], steps[j], side)
  {
    forall j | 0 <= j < |steps| ensures NotFarAhead(states[j], steps[j], side) {
      assert Enabled(states[j], steps[j]);
      NoWrapBefore(states, steps, repaired, j, side);
      RunKeepsGenuine(states, steps, repaired, j, side);
      MessagesOnlyGrow(states, steps, repaired, j, side);
      if OrderedArrival(states[j], steps[j], side) { assert FlightOk(states[j].Self(side), steps[j].flight); }
    }
  }

  // ------------------------------------------------------------ such runs exist

  /** What an endpoint that has received nothing puts on the wire. */
  function EarlyFlight(sequence: u32, slot: Slot, payload: PacketType): Flight {
    Flight(Packet(PacketHeader(sequence, 0, Zero(), slot.channel, slot.seqNo), payload), 0)
  }

  const UNQUEUED: Slot := Slot(CHANNEL_UNRELIABLE, 0)
  const FIRST_RELIABLE: Slot := Slot(CHANNEL_RELIABLE, 0)

  /** A run of the code as written that protects the messages of both sides, A's
      under one discipline and B's under another. */
  ghost predicate IsProtected(dA: Discipline, dB: Discipline, states: seq<System>, steps: seq<Step>) {
    && IsRun(states, steps, false)
    && forall j :: 0 <= j < |steps| ==> Allowed(dA, states[j], steps[j], A) && Allowed(dB, states[j], steps[j], B)
  }

  lemma Extend(dA: Discipline, dB: Discipline, states: seq<System>, steps: seq<Step>, step: Step)
    requires IsProtected(dA, dB, states, steps) && Enabled(states[|steps|], step)
    requires Allowed(dA, states[|steps|], step, A) && Allowed(dB, states[|steps|], step, B)
    ensures IsProtected(dA, dB, states + [Next(states[|steps|], step)], steps + [step])
  {
    var states', steps' := states + [Next(states[|steps|], step)], steps + [step];
    forall i | 0 <= i < |steps'|
      ensures Enabled(states'[i], steps'[i]) && states'[i + 1] == Next(states'[i], steps'[i])
      ensures Allowed(dA, states'[i], steps'[i], A) && Allowed(dB, states'[i], steps'[i], B)
    {
      if i < |steps| { assert states'[i] == states[i] && states'[i + 1] == states[i + 1] && steps'[i] == steps[i]; }
    }
  }

  /** A sends an unqueued packet and a reliable one. */
  lemma LeadingSends() returns (states: seq<System>, steps: seq<Step>)
    ensures IsProtected(LeadUnqueued, LeadUnqueued, states, steps)
    ensures var s := states[|steps|];
            && EarlyFlight(0, UNQUEUED, Ping(0)) in s.toB && EarlyFlight(1, FIRST_RELIABLE, Disconnect) in s.toB
            && s.a.end.tracked == [Tracked(0, false), Tracked(1, false)]
            && s.a.end.inflight == map[1 := FIRST_RELIABLE] && s.a.end.pendingReliable.Keys == {0}
            && s.a.end.receiver == FreshReceiver(false) && |s.a.wires| == 2 && s.a.reliable.messages == [Disconnect]
            && s.a.ordered.messages == [] && s.b == FreshParty(false)
  {
    states, steps := [Start(false)], [];
    var t1, t2 := DoSend(A, Ping(0), Unreliable, 0), DoSend(A, Disconnect, Reliable, 0);
    var s1 := Next(Start(false), t1);
    Extend(LeadUnqueued, LeadUnqueued, states, steps, t1);
    states, steps := states + [s1], steps + [t1];
    assert s1.toB == {EarlyFlight(0, UNQUEUED, Ping(0))} && s1.a.end.tracked == [Tracked(0, false)];
    Extend(LeadUnqueued, LeadUnqueued, states, steps, t2);
    states, steps := states + [Next(s1, t2)], steps + [t2];
  }

  /** Both arrive. */
  lemma LeadingArrives() returns (states: seq<System>, steps: seq<Step>)
    ensures IsProtected(LeadUnqueued, LeadUnqueued, states, steps)
    ensures var s := states[|steps|];
            && s.a.end.tracked == [Tracked(0, false), Tracked(1, false)]
            && s.a.end.inflight == map[1 := FIRST_RELIABLE] && s.a.end.pendingReliable.Keys == {0}
            && s.a.end.receiver == FreshReceiver(false) && |s.a.wires| == 2 && s.a.reliable.messages == [Disconnect]
            && s.a.ordered.messages == []
            && s.b.end.receiver.last == 1 && s.b.end.receiver.bits[0]
            && s.b.handedReliable == [Handed(0, Disconnect)] && s.b.end.sendSequence == 0 && s.b.wires == []
            && s.b.reliable.messages == [] && s.b.ordered.messages == []
  {
    states, steps := LeadingSends();
    var s2 := states[|steps|];
    var f0, f1 := EarlyFlight(0, UNQUEUED, Ping(0)), EarlyFlight(1, FIRST_RELIABLE, Disconnect);
    Extend(LeadUnqueued, LeadUnqueued, states, steps, DoReceive(B, f0));
    var s3 := Next(s2, DoReceive(B, f0));
    states, steps := states + [s3], steps + [DoReceive(B, f0)];
    ReceiveTakes(s2.b, f0.packet);
    ReceiveRecords(s2.b, f0.packet);
    assert s3.b.end.receiver == Receiver(0, Zero(), [0], false) && f1 in s3.toB;
    Extend(LeadUnqueued, LeadUnqueued, states, steps, DoReceive(B, f1));
    states, steps := states + [Next(s3, DoReceive(B, f1))], steps + [DoReceive(B, f1)];
    ReceiveTakes(s3.b, f1.packet);
    ReceiveRecords(s3.b, f1.packet);
  }

  /** The guards leave room for real traffic: here both sides are protected, A's
      reliable message is handed over by B, and B's answer takes it off A's
      pending map. */
  lemma ProtectedRunDelivers() returns (states: seq<System>, steps: seq<Step>)
    ensures IsProtected(LeadUnqueued, LeadUnqueued, states, steps)
    ensures var s := states[|steps|];
            && NoWrap(s.a) && NoWrap(s.b) && s.a.reliable.messages == [Disconnect]
            && s.a.end.pendingReliable == map[] && s.b.handedReliable == [Handed(0, Disconnect)]
  {
    states, steps := LeadingArrives();
    var s4, t5 := states[|steps|], DoSend(B, Pong(0), Unreliable, 0);
    Extend(LeadUnqueued, LeadUnqueued, states, steps, t5);
    var g := PartySend(s4.b, Pong(0), Unreliable, 0).1;
    states, steps := states + [Next(s4, t5)], steps + [t5];
    AnswerReleases(states[|steps|].a, g.packet);
    Extend(LeadUnqueued, LeadUnqueued, states, steps, DoReceive(A, g));
    states, steps := states + [Next(states[|steps|], DoReceive(A, g))], steps + [DoReceive(A, g)];
  }

  lemma AnswerReleases(a: Party, packet: Packet)
    requires a.end.tracked == [Tracked(0, false), Tracked(1, false)]
    requires a.end.inflight == map[1 := FIRST_RELIABLE] && a.end.pendingReliable.Keys == {0}
    requires packet.header.ack == 1
    ensures PartyReceive(a, packet).end.pendingReliable == map[]
  {
    assert a.end.tracked[1] == Tracked(1, false);
    assert Claims(packet.header.ack, packet.header.ackBitfield, 1);
    ClaimReleases(a.end, packet, 1, CHANNEL_RELIABLE, 0);
    ReceiveKeepsKeys(a, packet);
  }

  lemma ReceiveKeepsKeys(x: Party, packet: Packet)
    ensures PartyReceive(x, packet).end.pendingReliable.Keys <= x.end.pendingReliable.Keys
  {
    var h := packet.header;
    Retention.ReceiveOnSender(x, packet);
    var e := x.end.(tracked := DropAcked(Marked(x.end.tracked, h.ack, h.ackBitfield)));
    forall c | c in PartyReceive(x, packet).end.pendingReliable ensures c in x.end.pendingReliable {
      Retention.ReleaseAllPending(e, Reported(x.end.tracked, h.ack, h.ackBitfield), CHANNEL_RELIABLE, c);
    }
  }

  /** An ack that claims `q` takes the message `q` carried off its pending map. */
  lemma ClaimReleases(e: Endpoint, packet: Packet, q: u32, channel: u8, c: u16)
    requires IsQueued(channel) && Unacked(e.tracked, q) && Claims(packet.header.ack, packet.header.ackBitfield, q)
    requires q in e.inflight && e.inflight[q] == Slot(channel, c)
    ensures c !in PendingOf(Process(e, packet).0, channel)
  {
    var h := packet.header;
    var reported := Reported(e.tracked, h.ack, h.ackBitfield);
    ReportedExactly(e.tracked, h.ack, h.ackBitfield, q);
    var e' := e.(tracked := DropAcked(Marked(e.tracked, h.ack, h.ackBitfield)));
    assert Retention.Released(e', reported, Slot(channel, c));
    Retention.ReleaseAllPending(e', reported, channel, c);
    Retention.DeliverLeaves(ApplyAcks(e, h.ack, h.ackBitfield).(receiver := Record(e.receiver, h.sequence)),
                            SlotOf(packet), packet.payload);
    Retention.AckLeaves(e, h.ack, h.ackBitfield);
  }

  /** A's first packet is a reliable message, and it arrives. */
  lemma WaitingArrives() returns (states: seq<System>, steps: seq<Step>)
    ensures IsProtected(WaitToHear, LeadUnqueued, states, steps)
    ensures var s := states[|steps|];
            && s.a.end.tracked == [Tracked(0, false)] && s.a.end.inflight == map[0 := FIRST_RELIABLE]
            && s.a.end.pendingReliable.Keys == {0} && |s.a.wires| == 1 && s.a.reliable.messages == [Disconnect]
            && s.a.ordered.messages == [] && s.a.end.receiver == FreshReceiver(false)
            && s.b.end.receiver == Receiver(0, Zero(), [0], false) && s.b.handedReliable == [Handed(0, Disconnect)]
            && s.b.wires == [] && s.b.reliable == Outbox([], []) && s.b.ordered == Outbox([], [])
            && s.b.end.sendSequence == 0
  {
    states, steps := [Start(false)], [];
    var t1 := DoSend(A, Disconnect, Reliable, 0);
    var f := EarlyFlight(0, FIRST_RELIABLE, Disconnect);
    Extend(WaitToHear, LeadUnqueued, states, steps, t1);
    var s1 := Next(Start(false), t1);
    states, steps := states + [s1], steps + [t1];
    assert s1.toB == {f} && s1.a.end.tracked == [Tracked(0, false)];
    FirstHeard(f.packet);
    Extend(WaitToHear, LeadUnqueued, states, steps, DoReceive(B, f));
    states, steps := states + [Next(s1, DoReceive(B, f))], steps + [DoReceive(B, f)];
  }

  /** And under the other discipline: B waits until A's first packet, a reliable
      message, is there, and its answer takes the message off A's pending map. */
  lemma WaitingRunDelivers() returns (states: seq<System>, steps: seq<Step>)
    ensures IsProtected(WaitToHear, LeadUnqueued, states, steps)
    ensures var s := states[|steps|];
            && NoWrap(s.a) && NoWrap(s.b) && s.a.reliable.messages == [Disconnect]
            && s.a.end.pendingReliable == map[] && s.b.handedReliable == [Handed(0, Disconnect)]
  {
    states, steps := WaitingArrives();
    var s2, t3 := states[|steps|], DoSend(B, Pong(0), Unreliable, 0);
    Extend(WaitToHear, LeadUnqueued, states, steps, t3);
    var g := PartySend(s2.b, Pong(0), Unreliable, 0).1;
    states, steps := states + [Next(s2, t3)], steps + [t3];
    FirstAnswered(states[|steps|].a, g.packet);
    Extend(WaitToHear, LeadUnqueued, states, steps, DoReceive(A, g));
    states, steps := states + [Next(states[|steps|], DoReceive(A, g))], steps + [DoReceive(A, g)];
  }

  lemma FirstHeard(packet: Packet)
    requires SlotOf(packet) == FIRST_RELIABLE && packet.header.sequence == 0
    ensures var b := PartyReceive(FreshParty(false), packet);
            && b.end.receiver == Receiver(0, Zero(), [0], false) && b.handedReliable == [Handed(0, packet.payload)]
            && b.wires == [] && b.reliable == Outbox([], []) && b.ordered == Outbox([], []) && b.end.sendSequence == 0
  {
    ReceiveTakes(FreshParty(false), packet);
    ReceiveRecords(FreshParty(false), packet);
  }

  lemma FirstAnswered(a: Party, packet: Packet)
    requires a.end.tracked == [Tracked(0, false)]
    requires a.end.inflight == map[0 := FIRST_RELIABLE] && a.end.pendingReliable.Keys == {0}
    requires packet.header.ack == 0
    ensures PartyReceive(a, packet).end.pendingReliable == map[]
  {
    assert a.end.tracked[0] == Tracked(0, false);
    ClaimReleases(a.end, packet, 0, CHANNEL_RELIABLE, 0);
    ReceiveKeepsKeys(a, packet);
  }
}
