/** The reliable channel's 256-entry history and what it guarantees, for every
    run, wraps included. */
module Dedup {
  import opened Collections
  import opened Serial
  import opened Protocol
  import opened Connection
  import opened Network
  import opened NoLoss

  /** The history is the channel sequences of the last 256 deliveries, and a
      sequence is not delivered again while it is in there. */
  ghost predicate DedupInv(y: Party) {
    var history, handed := y.end.reliableHistory, y.handedReliable;
    && |history| == (if |handed| < RELIABLE_HISTORY_SIZE then |handed| else RELIABLE_HISTORY_SIZE)
    && (forall i :: 0 <= i < |history| ==> history[i] == handed[|handed| - |history| + i].seqNo)
    && (forall i, j :: 0 <= i < j < |handed| && j - i <= RELIABLE_HISTORY_SIZE ==> handed[i].seqNo != handed[j].seqNo)
  }

  lemma TakesKeepsDedup(y: Party, y': Party, packet: Packet)
    requires DedupInv(y) && Takes(y, y', packet)
    ensures DedupInv(y')
  {
    if y'.handedReliable != y.handedReliable { FreshInWindow(y, packet.header.channelSeq); }
  }

  /** A sequence not in the history is none of the last 256 delivered. */
  lemma FreshInWindow(y: Party, c: u16)
    requires DedupInv(y) && c !in y.end.reliableHistory
    ensures var handed := y.handedReliable;
            forall i :: 0 <= i < |handed| && |handed| - i <= RELIABLE_HISTORY_SIZE ==> handed[i].seqNo != c
  {
    var history, handed := y.end.reliableHistory, y.handedReliable;
    forall i | 0 <= i < |handed| && |handed| - i <= RELIABLE_HISTORY_SIZE ensures handed[i].seqNo != c {
      assert history[i - (|handed| - |history|)] == handed[i].seqNo;
    }
  }

  /** A channel sequence is in the history, so that another copy of it is dropped,
      exactly if it is one of the last 256 delivered. */
  lemma RememberedExactly(y: Party, c: u16)
    requires DedupInv(y)
    ensures c in y.end.reliableHistory <==>
            exists i :: 0 <= i < |y.handedReliable| && y.handedReliable[i].seqNo == c
                        && |y.handedReliable| - i <= RELIABLE_HISTORY_SIZE
  {
    var history, handed := y.end.reliableHistory, y.handedReliable;
    if c in history {
      var k :| 0 <= k < |history| && history[k] == c;
      assert handed[|handed| - |history| + k].seqNo == c;
    } else {
      FreshInWindow(y, c);
    }
  }

  /** So a repeated copy is handed over again exactly if 256 others were delivered
      since, whichever wire sequence it comes under. */
  lemma RedeliveredExactly(y: Party, packet: Packet, c: u16)
    requires DedupInv(y) && packet.header.sequence !in y.end.receiver.recent
    requires packet.header.channel == CHANNEL_RELIABLE && packet.header.channelSeq == c
    ensures PartyReceive(y, packet).handedReliable == y.handedReliable + [Handed(c, packet.payload)] <==>
            forall i :: 0 <= i < |y.handedReliable| && y.handedReliable[i].seqNo == c ==>
              |y.handedReliable| - i > RELIABLE_HISTORY_SIZE
  {
    ReceiveTakes(y, packet);
    RememberedExactly(y, c);
  }

  lemma StepKeepsDedup(s: System, step: Step, side: Side)
    requires Enabled(s, step) && DedupInv(s.Self(side))
    ensures DedupInv(Next(s, step).Self(side))
  {
    if step.side == side {
      match step
      case DoSend(_, payload, reliability, now) => SendGrows(s.Self(side), payload, reliability, now);
      case DoResend(_, channel, c, now) => ResendGrows(s.Self(side), channel, c, now);
      case DoReceive(_, f) =>
        ReceiveTakes(s.Self(side), f.packet);
        TakesKeepsDedup(s.Self(side), PartyReceive(s.Self(side), f.packet), f.packet);
      case DoLose(_, _) =>
    }
  }

  /** After any run the history is exactly the last min(n, 256) delivered channel
      sequences, all distinct. */
  lemma {:induction false} HistoryIsLastDelivered(
    states: seq<System>, steps: seq<Step>, repaired: bool, i: nat, side: Side)
    requires IsRun(states, steps, repaired) && i <= |steps|
    ensures DedupInv(states[i].Self(side))
  {
    if i == 0 {
    } else {
      assert Enabled(states[i - 1], steps[i - 1]) && states[i - 1 + 1] == Next(states[i - 1], steps[i - 1]);
      HistoryIsLastDelivered(states, steps, repaired, i - 1, side);
      StepKeepsDedup(states[i - 1], steps[i - 1], side);
    }
  }

  function SeqNos(handed: seq<Handed>): set<u16> {
    set h | h in handed :: h.seqNo
  }

  lemma {:induction false} DistinctCount(handed: seq<Handed>)
    requires forall i, j :: 0 <= i < j < |handed| ==> handed[i].seqNo != handed[j].seqNo
    ensures |SeqNos(handed)| == |handed|
  {
    if handed == [] {
    } else {
      var front, last := handed[..|handed| - 1], handed[|handed| - 1];
      DistinctCount(front);
      assert handed == front + [last];
      assert SeqNos(handed) == SeqNos(front) + {last.seqNo};
    }
  }

  /** Two deliveries of one channel sequence have at least 256 others between. */
  lemma RepeatsAreFarApart(states: seq<System>, steps: seq<Step>, repaired: bool, side: Side, i: nat, j: nat)
    requires IsRun(states, steps, repaired)
    requires var handed := states[|steps|].Self(side).handedReliable;
             i < j < |handed| && handed[i].seqNo == handed[j].seqNo
    ensures j - i - 1 >= RELIABLE_HISTORY_SIZE
  {
    HistoryIsLastDelivered(states, steps, repaired, |steps|, side);
  }

  /** With at most 256 distinct messages each is delivered at most once. */
  lemma AtMostOnce(states: seq<System>, steps: seq<Step>, repaired: bool, side: Side)
    requires IsRun(states, steps, repaired)
    requires |SeqNos(states[|steps|].Self(side).handedReliable)| <= RELIABLE_HISTORY_SIZE
    ensures var handed := states[|steps|].Self(side).handedReliable;
            forall i, j :: 0 <= i < j < |handed| ==> handed[i].seqNo != handed[j].seqNo
  {
    var handed := states[|steps|].Self(side).handedReliable;
    HistoryIsLastDelivered(states, steps, repaired, |steps|, side);
    forall i, j | 0 <= i < j < |handed| ensures handed[i].seqNo != handed[j].seqNo {
      if handed[i].seqNo == handed[j].seqNo {
        var window := handed[i..i + RELIABLE_HISTORY_SIZE + 1];
        DistinctCount(window);
        SubsetCount(SeqNos(window), SeqNos(handed));
        assert false;
      }
    }
  }

  function Below(n: nat): (s: set<u16>)
    requires n <= POW16
    ensures |s| == n
    ensures forall c: u16 :: c in s <==> c < n
  {
    if n == 0 then {}
    else
      var c: u16 := n - 1;
      Below(n - 1) + {c}
  }

  /** End to end, with at most 256 reliable messages sent and sound acks: only
      sent messages are handed over, none twice, and each one sent is either
      handed over or still pending. */
  lemma ExactlyOnceOrPending(states: seq<System>, steps: seq<Step>, repaired: bool, side: Side)
    requires IsRun(states, steps, repaired) && NoWrap(states[|steps|].Self(side))
    requires |states[|steps|].Self(side).reliable.messages| <= RELIABLE_HISTORY_SIZE
    requires forall j :: 0 <= j < |steps| ==> TruthfulReceipt(states[j], steps[j], side, CHANNEL_RELIABLE)
    ensures var x, handed := states[|steps|].Self(side), states[|steps|].Peer(side).handedReliable;
            && (forall h :: h in handed ==> WasSent(x, h))
            && (forall i, j :: 0 <= i < j < |handed| ==> handed[i].seqNo != handed[j].seqNo)
            && (forall c: u16 :: c < |x.reliable.messages| ==>
                  c in x.end.pendingReliable || Handed(c, x.reliable.messages[c]) in handed)
  {
    var x, handed := states[|steps|].Self(side), states[|steps|].Peer(side).handedReliable;
    RunKeepsGenuine(states, steps, repaired, |steps|, side);
    forall c | c in SeqNos(handed) ensures c in Below(|x.reliable.messages|) {
      var h :| h in handed && h.seqNo == c;
      assert WasSent(x, h);
    }
    SubsetCount(SeqNos(handed), Below(|x.reliable.messages|));
    AtMostOnce(states, steps, repaired, if side == A then B else A);
    forall c: u16 | c < |x.reliable.messages|
      ensures c in x.end.pendingReliable || Handed(c, x.reliable.messages[c]) in handed
    {
      NothingIsLost(states, steps, repaired, side, CHANNEL_RELIABLE, c);
    }
  }
}
