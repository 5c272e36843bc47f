/** The ordered channel hands over an exact prefix of what was sent, in order,
    however often its 16-bit sequence wraps. */
module OrderedDelivery {
  import opened Serial
  import opened Tracking
  import opened Protocol
  import opened Connection
  import opened Network
  import Retention

  // ---------------------------------------------------------- any arrivals

  datatype Arrival = Arrival(seqNo: u16, payload: PacketType)

  /** The channel after a list of arrivals: `payloads` is everything handed over. */
  function Accept(arrivals: seq<Arrival>): Drained {
    if arrivals == [] then Drained(0, map[], [])
    else
      var before, last := Accept(arrivals[..|arrivals| - 1]), arrivals[|arrivals| - 1];
      var d := AcceptOrdered(before.next, before.buffer, last.seqNo, last.payload);
      d.(payloads := before.payloads + d.payloads)
  }

  /** Every buffered sequence is strictly ahead of the next expected one. */
  ghost predicate KeysAhead(next: u16, buffer: map<u16, PacketType>) {
    forall k :: k in buffer ==> SequenceGreaterThan16(k, next)
  }

  /** Position `i` of `handed` arrived under channel sequence `i` modulo 2^16,
      and so did every buffered payload under its key. */
  ghost predicate InSequence(arrivals: seq<Arrival>, handed: seq<PacketType>, next: u16, buffer: map<u16, PacketType>) {
    && next == Residue16(|handed|)
    && (forall i: nat :: i < |handed| ==> Arrival(Residue16(i), handed[i]) in arrivals)
    && (forall k :: k in buffer ==> Arrival(k, buffer[k]) in arrivals)
  }

  /** After `next` is handed over the keys may start at the new `next`; draining
      takes it and its successors, and leaves keys strictly ahead. */
  lemma {:induction false} DrainInSequence(
    arrivals: seq<Arrival>, handed: seq<PacketType>, next: u16, buffer: map<u16, PacketType>)
    requires InSequence(arrivals, handed, next, buffer)
    requires forall k :: k in buffer ==> Ahead16(k, next) <= HALF16
    ensures var d := Drain(next, buffer);
            InSequence(arrivals, handed + d.payloads, d.next, d.buffer) && KeysAhead(d.next, d.buffer)
    decreases buffer.Keys
  {
    var d := Drain(next, buffer);
    if next in buffer {
      IncResidue16(|handed|);
      DrainInSequence(arrivals, handed + [buffer[next]], WrapInc16(next), buffer - {next});
      var rest := Drain(WrapInc16(next), buffer - {next});
      assert handed + d.payloads == handed + [buffer[next]] + rest.payloads;
    } else {
      assert handed + d.payloads == handed;
    }
  }

  /** For any arrival order, position `i` handed over was carried under channel
      sequence `i` modulo 2^16: no gap, no repeat. */
  lemma {:induction false} HandedInSequence(arrivals: seq<Arrival>)
    ensures var d := Accept(arrivals);
            InSequence(arrivals, d.payloads, d.next, d.buffer) && KeysAhead(d.next, d.buffer)
  {
    if arrivals == [] {
    } else {
      var front, last := arrivals[..|arrivals| - 1], arrivals[|arrivals| - 1];
      var b := Accept(front);
      HandedInSequence(front);
      assert arrivals == front + [last];
      assert InSequence(arrivals, b.payloads, b.next, b.buffer);
      AcceptInSequence(arrivals, b.payloads, b.next, b.buffer, last);
    }
  }

  lemma AcceptInSequence(
    arrivals: seq<Arrival>, handed: seq<PacketType>, next: u16, buffer: map<u16, PacketType>, last: Arrival)
    requires InSequence(arrivals, handed, next, buffer) && KeysAhead(next, buffer) && last in arrivals
    ensures var d := AcceptOrdered(next, buffer, last.seqNo, last.payload);
            InSequence(arrivals, handed + d.payloads, d.next, d.buffer) && KeysAhead(d.next, d.buffer)
  {
    var d := AcceptOrdered(next, buffer, last.seqNo, last.payload);
    if last.seqNo == next {
      IncResidue16(|handed|);
      var r := Drain(WrapInc16(next), buffer);
      DrainInSequence(arrivals, handed + [last.payload], WrapInc16(next), buffer);
      assert handed + d.payloads == handed + [last.payload] + r.payloads;
    } else {
      assert handed + d.payloads == handed;
    }
  }

  // -------------------------------------------------- sent stream and window

  /** The channel has handed over `n` of the `messages` and buffers later ones. */
  ghost predicate InOrder(messages: seq<PacketType>, n: nat, next: u16, buffer: map<u16, PacketType>) {
    n <= |messages| && KeysAhead(next, buffer) && Contents(messages, n, next, buffer)
  }

  /** A buffered payload is the message as far ahead as its key is. */
  predicate Contents(messages: seq<PacketType>, handed: nat, next: u16, buffer: map<u16, PacketType>) {
    forall k :: k in buffer ==>
      && handed + Ahead16(k, next) < |messages|
      && buffer[k] == messages[handed + Ahead16(k, next)]
  }

  predicate InWindow(index: nat, handed: nat) {
    -HALF16 <= index - handed <= HALF16
  }

  /** Where an arrival stands relative to the next expected message. */
  ghost predicate Placed(c: u16, index: nat, next: u16, n: nat) {
    && (c == next <==> index == n)
    && (SequenceGreaterThan16(c, next) <==> index > n)
    && (index > n ==> Ahead16(c, next) == index - n)
  }

  /** Within one turn of the counter an arrival is placed right exactly if it is
      in the window, or half the range away with the tie going its way. */
  lemma PlacedExactly(index: nat, n: nat)
    requires -POW16 < index - n < POW16
    ensures var c, next := Residue16(index), Residue16(n);
            Placed(c, index, next, n) <==>
            || InWindow(index, n)
            || (index - n == HALF16 + 1 && c < next)
            || (n - index == HALF16 + 1 && next < c)
  {
    if index >= n { AheadOfResidue16(index, n); } else { AheadOfResidue16(n, index); }
  }

  /** The receiver takes the arrival for what it is, or drops it. */
  predicate ReadRight(c: u16, index: nat, next: u16, n: nat) {
    && (c == next ==> index == n)
    && (SequenceGreaterThan16(c, next) ==> index == n + Ahead16(c, next))
  }

  /** Within one turn an arrival is misread exactly if it is half the range behind
      or more. */
  lemma ReadRightExactly(index: nat, n: nat)
    requires -POW16 < index - n < POW16
    ensures var c, next := Residue16(index), Residue16(n);
            ReadRight(c, index, next, n) <==>
            n - index <= HALF16 || (n - index == HALF16 + 1 && next < c)
  {
    if index >= n { AheadOfResidue16(index, n); } else { AheadOfResidue16(n, index); }
  }

  /** And a message still to come is dropped exactly if it is half the range ahead
      or more. */
  lemma DroppedExactly(index: nat, n: nat, buffer: map<u16, PacketType>, payload: PacketType)
    requires 0 < index - n < POW16 && Residue16(index) !in buffer
    ensures var c, next := Residue16(index), Residue16(n);
            AcceptOrdered(next, buffer, c, payload) == Drained(next, buffer, []) <==>
            index - n > HALF16 + 1 || (index - n == HALF16 + 1 && next < c)
  {
    AheadOfResidue16(index, n);
  }

  /** The payload is that of the message the receiver takes it for. */
  ghost predicate Fits(messages: seq<PacketType>, payload: PacketType, c: u16, next: u16, n: nat) {
    && (c == next ==> n < |messages| && payload == messages[n])
    && (SequenceGreaterThan16(c, next) ==>
          n + Ahead16(c, next) < |messages| && payload == messages[n + Ahead16(c, next)])
  }

  lemma AcceptNext(messages: seq<PacketType>, n: nat, next: u16, buffer: map<u16, PacketType>)
    requires InOrder(messages, n, next, buffer) && n < |messages|
    ensures var d := AcceptOrdered(next, buffer, next, messages[n]);
            && InOrder(messages, n + |d.payloads|, d.next, d.buffer)
            && d.payloads == messages[n..n + |d.payloads|]
  {
    ContentsStep(messages, n, next, buffer);
    DrainTakes(messages, n + 1, WrapInc16(next), buffer);
    JoinRun(messages, n, Drain(WrapInc16(next), buffer).payloads);
  }

  /** One arrival keeps the channel in order, handing over the next messages if
      any, exactly if its payload fits where the receiver puts it. */
  lemma AcceptInOrder(
    messages: seq<PacketType>, n: nat, next: u16, buffer: map<u16, PacketType>, c: u16, payload: PacketType)
    requires InOrder(messages, n, next, buffer)
    ensures var d := AcceptOrdered(next, buffer, c, payload);
            Fits(messages, payload, c, next, n) <==>
            && InOrder(messages, n + |d.payloads|, d.next, d.buffer)
            && d.payloads == messages[n..n + |d.payloads|]
  {
    var d := AcceptOrdered(next, buffer, c, payload);
    if c == next && n < |messages| && payload == messages[n] {
      AcceptNext(messages, n, next, buffer);
    } else if c == next && n + |d.payloads| <= |messages| {
      assert d.payloads[0] == payload && messages[n..n + |d.payloads|][0] == messages[n];
    } else if SequenceGreaterThan16(c, next) {
      BufferedFits(messages, n, next, buffer, c, payload);
    }
  }

  lemma BufferedFits(
    messages: seq<PacketType>, n: nat, next: u16, buffer: map<u16, PacketType>, c: u16, payload: PacketType)
    requires InOrder(messages, n, next, buffer) && c != next && SequenceGreaterThan16(c, next)
    ensures InOrder(messages, n, next, buffer[c := payload]) <==>
            n + Ahead16(c, next) < |messages| && payload == messages[n + Ahead16(c, next)]
  {
    var buffer' := buffer[c := payload];
    assert c in buffer' && buffer'[c] == payload;
  }

  /** The next expected sequence keeps counting what was handed over. */
  lemma AcceptCounts(n: nat, buffer: map<u16, PacketType>, c: u16, payload: PacketType)
    ensures var d := AcceptOrdered(Residue16(n), buffer, c, payload); d.next == Residue16(n + |d.payloads|)
  {
    if c == Residue16(n) {
      IncResidue16(n);
      DrainCounts(n + 1, buffer);
      assert Residue16(n + 1 + |Drain(Residue16(n + 1), buffer).payloads|)
          == Residue16(n + (1 + |Drain(Residue16(n + 1), buffer).payloads|));
    }
  }

  lemma JoinRun(messages: seq<PacketType>, n: nat, rest: seq<PacketType>)
    requires n + 1 + |rest| <= |messages| && rest == messages[n + 1..n + 1 + |rest|]
    ensures [messages[n]] + rest == messages[n..n + 1 + |rest|]
  {
  }

  lemma ContentsStep(messages: seq<PacketType>, handed: nat, next: u16, buffer: map<u16, PacketType>)
    requires Contents(messages, handed, next, buffer) && next !in buffer
    requires forall k :: k in buffer ==> Ahead16(k, next) <= HALF16 + 1
    ensures Contents(messages, handed + 1, WrapInc16(next), buffer)
    ensures forall k :: k in buffer ==> Ahead16(k, WrapInc16(next)) <= HALF16
  {
    forall k | k in buffer ensures Ahead16(k, next) == Ahead16(k, WrapInc16(next)) + 1 {}
  }

  lemma {:induction false} DrainCounts(n: nat, buffer: map<u16, PacketType>)
    ensures var d := Drain(Residue16(n), buffer); d.next == Residue16(n + |d.payloads|)
    decreases buffer.Keys
  {
    if Residue16(n) !in buffer {
    } else {
      IncResidue16(n);
      DrainCounts(n + 1, buffer - {Residue16(n)});
    }
  }

  /** A key leaves the buffer only by being handed over. */
  lemma {:induction false} DrainRemoves(next: u16, buffer: map<u16, PacketType>, k: u16)
    requires k in buffer
    ensures var d := Drain(next, buffer); k in d.buffer || Ahead16(k, next) < |d.payloads|
    decreases buffer.Keys
  {
    if next !in buffer || k == next {
    } else {
      DrainRemoves(WrapInc16(next), buffer - {next}, k);
      assert Ahead16(k, next) == Ahead16(k, WrapInc16(next)) + 1;
    }
  }

  lemma {:induction false} DrainTakes(messages: seq<PacketType>, n: nat, next: u16, buffer: map<u16, PacketType>)
    requires n <= |messages| && Contents(messages, n, next, buffer)
    requires forall k :: k in buffer ==> Ahead16(k, next) <= HALF16
    ensures var d := Drain(next, buffer);
            && n + |d.payloads| <= |messages| && d.payloads == messages[n..n + |d.payloads|]
            && KeysAhead(d.next, d.buffer) && Contents(messages, n + |d.payloads|, d.next, d.buffer)
    decreases buffer.Keys
  {
    if next !in buffer {
      forall k | k in buffer ensures SequenceGreaterThan16(k, next) { GreaterByDistance16(k, next); }
    } else {
      var rest := buffer - {next};
      assert n < |messages| && buffer[next] == messages[n];
      ContentsWithout(messages, n, next, buffer);
      ContentsStep(messages, n, next, rest);
      DrainTakes(messages, n + 1, WrapInc16(next), rest);
      JoinRun(messages, n, Drain(WrapInc16(next), rest).payloads);
    }
  }

  lemma ContentsWithout(messages: seq<PacketType>, n: nat, next: u16, buffer: map<u16, PacketType>)
    requires Contents(messages, n, next, buffer)
    ensures Contents(messages, n, next, buffer - {next})
  {
  }

  // --------------------------------------------------------------------- runs

  /** What the sender holds for the ordered channel, wraps included. */
  ghost predicate SenderOk(x: Party) {
    var sent := x.ordered.messages;
    && x.end.nextOrderedSeq == Residue16(|sent|)
    && forall c :: c in x.end.pendingOrdered ==>
         c in x.latest && HoldsMessage(x.end.pendingOrdered[c], c, x.latest[c], sent)
  }

  predicate HoldsMessage(p: Pending, c: u16, index: nat, sent: seq<PacketType>) {
    index < |sent| && c == Residue16(index) && p.payload == sent[index]
  }

  /** A flight carries the message its index says. */
  predicate Carries(f: Flight, sent: seq<PacketType>) {
    f.packet.header.channel == CHANNEL_ORDERED ==>
      f.index < |sent| && f.packet.header.channelSeq == Residue16(f.index) && f.packet.payload == sent[f.index]
  }

  /** The sender and its flights agree on which message is which. */
  ghost predicate Labelled(x: Party, flights: set<Flight>) {
    SenderOk(x) && forall f :: f in flights ==> Carries(f, x.ordered.messages)
  }

  /** What was handed over is a prefix of what was sent, and the buffer holds
      what belongs there. */
  ghost predicate Delivering(x: Party, y: Party) {
    && InOrder(x.ordered.messages, |y.handedOrdered|, y.end.nextExpectedOrdered, y.end.orderedBuffer)
    && y.end.nextExpectedOrdered == Residue16(|y.handedOrdered|)
    && y.handedOrdered == x.ordered.messages[..|y.handedOrdered|]
  }

  /** `side`'s peer receives, for the first time, an ordered packet. */
  predicate OrderedArrival(s: System, step: Step, side: Side) {
    && step.DoReceive? && step.side != side
    && step.flight.packet.header.channel == CHANNEL_ORDERED
    && step.flight.packet.header.sequence !in s.Peer(side).end.receiver.recent
  }

  ghost predicate FitsOk(s: System, step: Step, side: Side) {
    OrderedArrival(s, step, side) ==>
      var y := s.Peer(side);
      Fits(s.Self(side).ordered.messages, step.flight.packet.payload, step.flight.packet.header.channelSeq,
           y.end.nextExpectedOrdered, |y.handedOrdered|)
  }

  /** What a receiver could check if the packet carried its unbounded index. */
  predicate ReadRightOk(s: System, step: Step, side: Side) {
    OrderedArrival(s, step, side) ==>
      var y := s.Peer(side);
      ReadRight(step.flight.packet.header.channelSeq, step.flight.index, y.end.nextExpectedOrdered, |y.handedOrdered|)
  }

  /** An ordered packet arrives within half the range of the next expected index. */
  predicate WindowOk(s: System, step: Step, side: Side) {
    OrderedArrival(s, step, side) ==> InWindow(step.flight.index, |s.Peer(side).handedOrdered|)
  }

  lemma SendOrderedKeeps(x: Party, payload: PacketType, reliability: Reliability, now: nat)
    requires SenderOk(x)
    ensures var (x', f) := PartySend(x, payload, reliability, now);
            SenderOk(x') && Carries(f, x'.ordered.messages)
  {
    var x' := PartySend(x, payload, reliability, now).0;
    if reliability == Ordered {
      IncResidue16(|x.ordered.messages|);
      forall c | c in x.end.pendingOrdered
        ensures c in x.latest && HoldsMessage(x.end.pendingOrdered[c], c, x.latest[c], x'.ordered.messages)
      {
        assert HoldsMessage(x.end.pendingOrdered[c], c, x.latest[c], x.ordered.messages);
      }
    }
  }

  lemma ResendOrderedKeeps(x: Party, channel: u8, c: u16, now: nat)
    requires SenderOk(x) && IsQueued(channel) && c in PendingOf(x.end, channel)
    ensures var (x', f) := PartyResend(x, channel, c, now);
            SenderOk(x') && Carries(f, x'.ordered.messages)
  {
  }

  /** Receiving: the sending half keeps what it holds. */
  lemma ReceiveOrderedSender(x: Party, packet: Packet)
    requires SenderOk(x)
    ensures SenderOk(PartyReceive(x, packet)) && PartyReceive(x, packet).ordered == x.ordered
  {
    var h := packet.header;
    Retention.ReceiveOnSender(x, packet);
    Retention.AckLeaves(x.end, h.ack, h.ackBitfield);
    var e := x.end.(tracked := DropAcked(Marked(x.end.tracked, h.ack, h.ackBitfield)));
    forall c | c in PartyReceive(x, packet).end.pendingOrdered
      ensures c in x.end.pendingOrdered && PartyReceive(x, packet).end.pendingOrdered[c] == x.end.pendingOrdered[c]
    {
      Retention.ReleaseAllPending(e, Reported(x.end.tracked, h.ack, h.ackBitfield), CHANNEL_ORDERED, c);
    }
  }

  /** The receiving half goes through `AcceptOrdered`, or nothing happens. */
  ghost predicate Accepts(y: Party, y': Party, packet: Packet) {
    if packet.header.channel == CHANNEL_ORDERED && packet.header.sequence !in y.end.receiver.recent then
      var d := AcceptOrdered(y.end.nextExpectedOrdered, y.end.orderedBuffer, packet.header.channelSeq, packet.payload);
      && y'.end.nextExpectedOrdered == d.next && y'.end.orderedBuffer == d.buffer
      && y'.handedOrdered == y.handedOrdered + d.payloads
    else
      && y'.end.nextExpectedOrdered == y.end.nextExpectedOrdered && y'.end.orderedBuffer == y.end.orderedBuffer
      && y'.handedOrdered == y.handedOrdered
  }

  lemma ReceiveAccepts(y: Party, packet: Packet)
    ensures Accepts(y, PartyReceive(y, packet), packet)
  {
    Retention.AckLeaves(y.end, packet.header.ack, packet.header.ackBitfield);
  }

  lemma EmitKeepsLabels(x: Party, p: Party, f: Flight, flights: set<Flight>)
    requires Labelled(x, flights) && x.ordered.messages <= p.ordered.messages
    requires SenderOk(p) && Carries(f, p.ordered.messages)
    ensures Labelled(p, flights + {f})
  {
    forall g | g in flights + {f} ensures Carries(g, p.ordered.messages) {
      if g in flights { assert Carries(g, x.ordered.messages); }
    }
  }

  lemma StepKeepsLabels(s: System, step: Step, side: Side)
    requires Enabled(s, step) && Labelled(s.Self(side), s.Outgoing(side))
    ensures Labelled(Next(s, step).Self(side), Next(s, step).Outgoing(side))
  {
    if step.side == side {
      var x := s.Self(side);
      match step
      case DoSend(_, payload, reliability, now) =>
        var (p, f) := PartySend(x, payload, reliability, now);
        SendLeavesReceiver(x, payload, reliability, now);
        SendOrderedKeeps(x, payload, reliability, now);
        EmitKeepsLabels(x, p, f, s.Outgoing(side));
      case DoResend(_, channel, c, now) =>
        var (p, f) := PartyResend(x, channel, c, now);
        ResendOrderedKeeps(x, channel, c, now);
        EmitKeepsLabels(x, p, f, s.Outgoing(side));
      case DoReceive(_, f) => ReceiveOrderedSender(x, f.packet);
      case DoLose(_, _) =>
    }
  }

  lemma {:induction false} RunKeepsLabels(states: seq<System>, steps: seq<Step>, repaired: bool, i: nat, side: Side)
    requires IsRun(states, steps, repaired) && i <= |steps|
    ensures Labelled(states[i].Self(side), states[i].Outgoing(side))
  {
    if i == 0 {
    } else {
      assert Enabled(states[i - 1], steps[i - 1]) && states[i - 1 + 1] == Next(states[i - 1], steps[i - 1]);
      RunKeepsLabels(states, steps, repaired, i - 1, side);
      StepKeepsLabels(states[i - 1], steps[i - 1], side);
    }
  }

  lemma SendLeavesReceiver(x: Party, payload: PacketType, reliability: Reliability, now: nat)
    ensures var x' := PartySend(x, payload, reliability, now).0;
            && x.ordered.messages <= x'.ordered.messages
            && x'.handedOrdered == x.handedOrdered
            && x'.end.nextExpectedOrdered == x.end.nextExpectedOrdered && x'.end.orderedBuffer == x.end.orderedBuffer
  {
  }

  lemma ArrivalKeepsDelivering(x: Party, y: Party, y': Party, packet: Packet)
    requires Delivering(x, y) && Accepts(y, y', packet)
    ensures Delivering(x, y') <==>
            (packet.header.channel == CHANNEL_ORDERED && packet.header.sequence !in y.end.receiver.recent ==>
               Fits(x.ordered.messages, packet.payload, packet.header.channelSeq, y.end.nextExpectedOrdered,
                    |y.handedOrdered|))
  {
    var h, e, n, messages := packet.header, y.end, |y.handedOrdered|, x.ordered.messages;
    if h.channel == CHANNEL_ORDERED && h.sequence !in y.end.receiver.recent {
      AcceptInOrder(messages, n, e.nextExpectedOrdered, e.orderedBuffer, h.channelSeq, packet.payload);
      AcceptCounts(n, e.orderedBuffer, h.channelSeq, packet.payload);
      var payloads := AcceptOrdered(e.nextExpectedOrdered, e.orderedBuffer, h.channelSeq, packet.payload).payloads;
      if n + |payloads| <= |messages| { JoinPrefix(messages, n, payloads); }
    }
  }

  lemma StepDeliversExactly(s: System, step: Step, side: Side)
    requires Enabled(s, step) && Delivering(s.Self(side), s.Peer(side))
    ensures Delivering(Next(s, step).Self(side), Next(s, step).Peer(side)) <==> FitsOk(s, step, side)
  {
    match step
    case DoSend(at, payload, reliability, now) => SendLeavesReceiver(s.Self(at), payload, reliability, now);
    case DoResend(_, _, _, _) =>
    case DoReceive(at, f) =>
      ReceiveAccepts(s.Self(at), f.packet);
      if at == side {
        ReceiveLeavesOrdered(s.Self(side), f.packet);
      } else {
        ArrivalKeepsDelivering(s.Self(side), s.Peer(side), PartyReceive(s.Peer(side), f.packet), f.packet);
      }
    case DoLose(_, _) =>
  }

  lemma ReceiveLeavesOrdered(x: Party, packet: Packet)
    ensures PartyReceive(x, packet).ordered == x.ordered
  {
  }

  lemma JoinPrefix(messages: seq<PacketType>, n: nat, more: seq<PacketType>)
    requires n + |more| <= |messages|
    ensures messages[..n] + more == messages[..n + |more|] <==> more == messages[n..n + |more|]
  {
    var both := messages[..n] + more;
    if both == messages[..n + |more|] {
      forall k | 0 <= k < |more| ensures more[k] == messages[n..n + |more|][k] { assert both[n + k] == more[k]; }
    }
  }

  lemma {:induction false} RunDelivers(states: seq<System>, steps: seq<Step>, repaired: bool, i: nat, side: Side)
    requires IsRun(states, steps, repaired) && i <= |steps|
    requires forall j :: 0 <= j < i ==> FitsOk(states[j], steps[j], side)
    ensures Delivering(states[i].Self(side), states[i].Peer(side))
  {
    if i == 0 {
    } else {
      assert Enabled(states[i - 1], steps[i - 1]) && states[i - 1 + 1] == Next(states[i - 1], steps[i - 1]);
      RunDelivers(states, steps, repaired, i - 1, side);
      StepDeliversExactly(states[i - 1], steps[i - 1], side);
    }
  }

  /** In every run over a network that loses, repeats and reorders, across any
      number of 16-bit wraps: what the peer hands over is at every point exactly
      a prefix of what was sent, and its buffer holds what belongs there, if and
      only if each ordered arrival carries the payload of the message it is taken
      for. */
  lemma PrefixExactly(states: seq<System>, steps: seq<Step>, repaired: bool, side: Side)
    requires IsRun(states, steps, repaired)
    ensures (forall i :: 0 <= i <= |steps| ==> Delivering(states[i].Self(side), states[i].Peer(side)))
            <==> (forall j :: 0 <= j < |steps| ==> FitsOk(states[j], steps[j], side))
  {
    if forall j :: 0 <= j < |steps| ==> FitsOk(states[j], steps[j], side) {
      forall i | 0 <= i <= |steps| ensures Delivering(states[i].Self(side), states[i].Peer(side)) {
        RunDelivers(states, steps, repaired, i, side);
      }
    }
    if forall i :: 0 <= i <= |steps| ==> Delivering(states[i].Self(side), states[i].Peer(side)) {
      forall j | 0 <= j < |steps| ensures FitsOk(states[j], steps[j], side) {
        assert Enabled(states[j], steps[j]) && states[j + 1] == Next(states[j], steps[j]);
        assert Delivering(states[j].Self(side), states[j].Peer(side));
        assert Delivering(states[j + 1].Self(side), states[j + 1].Peer(side));
        StepDeliversExactly(states[j], steps[j], side);
      }
    }
  }

  lemma ReadRightFits(s: System, step: Step, side: Side)
    requires Enabled(s, step) && ReadRightOk(s, step, side)
    requires Labelled(s.Self(side), s.Outgoing(side))
    ensures FitsOk(s, step, side)
  {
    if OrderedArrival(s, step, side) { assert Carries(step.flight, s.Self(side).ordered.messages); }
  }

  /** So an arrival that is read for what it is, or dropped, never breaks the
      prefix; within one turn that is any arrival less than half the range
      behind, by `ReadRightExactly`. */
  lemma OrderedPrefix(states: seq<System>, steps: seq<Step>, repaired: bool, side: Side)
    requires IsRun(states, steps, repaired)
    requires forall j :: 0 <= j < |steps| ==> ReadRightOk(states[j], steps[j], side)
    ensures states[|steps|].Peer(side).handedOrdered <= states[|steps|].Self(side).ordered.messages
  {
    forall j | 0 <= j < |steps| ensures FitsOk(states[j], steps[j], side) {
      assert Enabled(states[j], steps[j]);
      RunKeepsLabels(states, steps, repaired, j, side);
      ReadRightFits(states[j], steps[j], side);
    }
    RunDelivers(states, steps, repaired, |steps|, side);
  }

  /** In particular within the window. */
  lemma WindowedPrefix(states: seq<System>, steps: seq<Step>, repaired: bool, side: Side)
    requires IsRun(states, steps, repaired)
    requires forall j :: 0 <= j < |steps| ==> WindowOk(states[j], steps[j], side)
    ensures states[|steps|].Peer(side).handedOrdered <= states[|steps|].Self(side).ordered.messages
  {
    forall j | 0 <= j < |steps| ensures ReadRightOk(states[j], steps[j], side) {
      if OrderedArrival(states[j], steps[j], side) {
        var y, f := states[j].Peer(side), steps[j].flight;
        assert Enabled(states[j], steps[j]);
        RunKeepsLabels(states, steps, repaired, j, side);
        RunCounts(states, steps, repaired, j, side);
        assert WindowOk(states[j], steps[j], side);
        assert Carries(f, states[j].Self(side).ordered.messages);
        ReadRightExactly(f.index, |y.handedOrdered|);
      }
    }
    OrderedPrefix(states, steps, repaired, side);
  }

  ghost predicate CountsOk(y: Party) {
    y.end.nextExpectedOrdered == Residue16(|y.handedOrdered|)
  }

  lemma AcceptsCounts(y: Party, y': Party, packet: Packet)
    requires CountsOk(y) && Accepts(y, y', packet)
    ensures CountsOk(y')
  {
    AcceptCounts(|y.handedOrdered|, y.end.orderedBuffer, packet.header.channelSeq, packet.payload);
  }

  /** The next expected sequence counts what was handed over, in every run. */
  lemma {:induction false} RunCounts(states: seq<System>, steps: seq<Step>, repaired: bool, i: nat, side: Side)
    requires IsRun(states, steps, repaired) && i <= |steps|
    ensures CountsOk(states[i].Peer(side))
  {
    if i == 0 {
    } else {
      var s, step := states[i - 1], steps[i - 1];
      assert Enabled(s, step) && states[i - 1 + 1] == Next(s, step);
      RunCounts(states, steps, repaired, i - 1, side);
      if step.side != side && step.DoReceive? {
        ReceiveAccepts(s.Peer(side), step.flight.packet);
        AcceptsCounts(s.Peer(side), PartyReceive(s.Peer(side), step.flight.packet), step.flight.packet);
      } else if step.DoSend? {
        SendLeavesReceiver(s.Self(step.side), step.payload, step.reliability, step.now);
      }
    }
  }

  /** Both sides of the window matter. With 2^15 messages handed over, a late copy
      of the first one is buffered as if it were the message 2^15 ahead. */
  lemma HalfRangeBehindIsMisfiled(payload: PacketType)
    ensures AcceptOrdered(Residue16(0x8000), map[], Residue16(0), payload).buffer == map[0 := payload]
  {
  }

  /** With none handed over, message 2^15 is dropped. */
  lemma HalfRangeAheadIsDropped(payload: PacketType)
    ensures AcceptOrdered(Residue16(0), map[], Residue16(0x8000), payload) == Drained(0, map[], [])
  {
  }
}
