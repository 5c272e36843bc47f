/** The ack bitfield across wraps: wire sequences are residues of an unbounded
    count, and the tracker is exact about the counts. */
module TrackerWraps {
  import opened Serial
  import opened Tracking

  /** The wire sequence of a count; -1 is the one before the first. */
  function Wire(i: int): u32 { i % POW32 }

  /** The tracker beside the counts it should represent: `seen` starts with the
      count it was created with, and `remembered` are the counts behind
      `recent_sequences`. */
  datatype Counted = Counted(tracker: Receiver, seen: seq<int>, newest: int, remembered: seq<int>)

  function Fresh(repaired: bool): Counted {
    var start := if repaired then -1 else 0;
    Counted(FreshReceiver(repaired), [start], start, [])
  }

  function Arrive(k: Counted, i: int): Counted {
    Counted(Record(k.tracker, Wire(i)),
            k.seen + [i],
            if i > k.newest then i else k.newest,
            if Wire(i) in k.tracker.recent then k.remembered else PushBounded(k.remembered, i, MAX_RECENT))
  }

  function ArriveAll(arrivals: seq<int>, repaired: bool): Counted {
    if arrivals == [] then Fresh(repaired)
    else Arrive(ArriveAll(arrivals[..|arrivals| - 1], repaired), arrivals[|arrivals| - 1])
  }

  /** The arrival is less than half the range from the newest one, and a whole
      turn from none that is remembered. */
  predicate Near(k: Counted, i: int) {
    -HALF32 <= i - k.newest <= HALF32 && forall j :: j in k.remembered ==> -POW32 < i - j < POW32
  }

  /** The guard of the recurrence as written, on counts. */
  predicate StepsOn(k: Counted, i: int) {
    k.tracker.repaired || i - k.newest <= 1 || i - k.newest > 32
  }

  predicate BitIsSeen(k: Counted, d: nat)
    requires 0 < d <= 32
  {
    k.tracker.bits[d - 1] <==> k.newest - d in k.seen
  }

  /** `last` is the newest count, and bit `d - 1` says whether the one `d` before
      it has been seen. */
  ghost predicate Exact(k: Counted) {
    && k.tracker.last == Wire(k.newest)
    && k.newest in k.seen && (forall i :: i in k.seen ==> i <= k.newest)
    && (forall d: nat | 0 < d <= 32 :: BitIsSeen(k, d))
    && |k.remembered| == |k.tracker.recent|
    && (forall j :: 0 <= j < |k.remembered| ==> k.tracker.recent[j] == Wire(k.remembered[j]))
    && (forall j :: j in k.remembered ==> j in k.seen)
  }

  lemma AheadOfWire(m: int, n: int)
    requires n <= m < n + POW32
    ensures Ahead32(Wire(m), Wire(n)) == m - n
  {
    assert m == POW32 * (m / POW32) + Wire(m);
    assert n == POW32 * (n / POW32) + Wire(n);
    assert m / POW32 == n / POW32 || m / POW32 == n / POW32 + 1;
  }

  lemma WireIsFaithful(m: int, n: int)
    requires -POW32 < m - n < POW32 && Wire(m) == Wire(n)
    ensures m == n
  {
    if m >= n { AheadOfWire(m, n); } else { AheadOfWire(n, m); }
  }

  /** A forward jump moves every bit by its length and sets the one for the old
      newest sequence. */
  lemma RecordForward(t: Receiver, w: u32, jump: nat, d: nat)
    requires 0 < d <= 32 && w !in t.recent && Ahead32(w, t.last) == jump && 0 < jump <= HALF32
    requires t.repaired || jump == 1 || jump > 32
    ensures var t' := Record(t, w);
            t'.last == w && (t'.bits[d - 1] <==> d == jump || (d > jump && t.bits[d - jump - 1]))
  {
    GreaterByDistance(w, t.last);
  }

  lemma ForwardKeepsExact(k: Counted, i: int)
    requires Exact(k) && Near(k, i) && StepsOn(k, i) && i > k.newest && Wire(i) !in k.tracker.recent
    ensures forall d: nat | 0 < d <= 32 :: BitIsSeen(Arrive(k, i), d)
    ensures Arrive(k, i).tracker.last == Wire(i)
  {
    AheadOfWire(i, k.newest);
    RecordForward(k.tracker, Wire(i), i - k.newest, 1);
    forall d: nat | 0 < d <= 32 ensures BitIsSeen(Arrive(k, i), d) {
      RecordForward(k.tracker, Wire(i), i - k.newest, d);
      ForwardBit(k, i, Wire(i), d);
    }
  }

  lemma ForwardBit(k: Counted, i: int, w: u32, d: nat)
    requires w == Wire(i) && i > k.newest && k.newest in k.seen && (forall j :: j in k.seen ==> j <= k.newest)
    requires forall e: nat | 0 < e <= 32 :: BitIsSeen(k, e)
    requires 0 < d <= 32
    requires var jump := i - k.newest;
             Record(k.tracker, w).bits[d - 1] <==> d == jump || (d > jump && k.tracker.bits[d - jump - 1])
    ensures BitIsSeen(Arrive(k, i), d)
  {
    var jump := i - k.newest;
    if d > jump {
      assert BitIsSeen(k, d - jump);
      assert i - d == k.newest - (d - jump);
    }
  }

  lemma BehindKeepsExact(k: Counted, i: int)
    requires Exact(k) && Near(k, i) && i <= k.newest && Wire(i) !in k.tracker.recent
    ensures forall d: nat | 0 < d <= 32 :: BitIsSeen(Arrive(k, i), d)
    ensures Arrive(k, i).tracker.last == k.tracker.last
  {
    var k', back := Arrive(k, i), k.newest - i;
    AheadOfWire(k.newest, i);
    assert Ahead32(k.tracker.last, Wire(i)) == back && !SequenceGreaterThan(Wire(i), k.tracker.last);
    forall d: nat | 0 < d <= 32 ensures BitIsSeen(k', d) {
      assert BitIsSeen(k, d);
    }
  }

  lemma KnownKeepsExact(k: Counted, i: int)
    requires Exact(k) && Near(k, i) && Wire(i) in k.tracker.recent
    ensures Exact(Arrive(k, i))
  {
    var k' := Arrive(k, i);
    var j :| 0 <= j < |k.tracker.recent| && k.tracker.recent[j] == Wire(i);
    assert k.remembered[j] in k.remembered;
    WireIsFaithful(i, k.remembered[j]);
    forall d: nat | 0 < d <= 32 ensures BitIsSeen(k', d) { assert BitIsSeen(k, d); }
  }

  lemma ArriveKeepsExact(k: Counted, i: int)
    requires Exact(k) && Near(k, i) && StepsOn(k, i)
    ensures Exact(Arrive(k, i))
  {
    if Wire(i) in k.tracker.recent {
      KnownKeepsExact(k, i);
    } else {
      if i > k.newest { ForwardKeepsExact(k, i); } else { BehindKeepsExact(k, i); }
      var k' := Arrive(k, i);
      forall j | j in k'.remembered ensures j in k'.seen { assert j in k.remembered || j == i; }
    }
  }

  /** Across any number of wraps, for arrivals less than half the range from the
      newest (and, as written, without a jump of 2 to 32): the ack is the newest
      count and the bitfield says exactly which of the 32 before it were seen,
      taking the one the tracker starts with as seen. */
  lemma {:induction false} ExactAcrossWraps(arrivals: seq<int>, repaired: bool)
    requires forall n :: 0 <= n < |arrivals| ==> ArrivalOk(arrivals, n, repaired)
    ensures Exact(ArriveAll(arrivals, repaired))
  {
    if arrivals == [] {
      FreshIsExact(repaired);
    } else {
      var n := |arrivals| - 1;
      var front := arrivals[..n];
      forall j | 0 <= j < n ensures ArrivalOk(front, j, repaired) { FrontIsOk(arrivals, n, j, repaired); }
      ExactAcrossWraps(front, repaired);
      LastKeepsExact(arrivals, repaired);
    }
  }

  lemma LastKeepsExact(arrivals: seq<int>, repaired: bool)
    requires arrivals != [] && ArrivalOk(arrivals, |arrivals| - 1, repaired)
    requires Exact(ArriveAll(arrivals[..|arrivals| - 1], repaired))
    ensures Exact(ArriveAll(arrivals, repaired))
  {
    ArriveKeepsExact(ArriveAll(arrivals[..|arrivals| - 1], repaired), arrivals[|arrivals| - 1]);
  }

  predicate ArrivalOk(arrivals: seq<int>, n: nat, repaired: bool)
    requires n < |arrivals|
  {
    var k := ArriveAll(arrivals[..n], repaired);
    Near(k, arrivals[n]) && StepsOn(k, arrivals[n])
  }

  lemma FrontIsOk(arrivals: seq<int>, n: nat, j: nat, repaired: bool)
    requires j < n < |arrivals| && ArrivalOk(arrivals, j, repaired)
    ensures ArrivalOk(arrivals[..n], j, repaired)
  {
    assert arrivals[..n][..j] == arrivals[..j] && arrivals[..n][j] == arrivals[j];
  }

  lemma FreshIsExact(repaired: bool)
    ensures Exact(Fresh(repaired))
  {
    var k := Fresh(repaired);
    forall d: nat | 0 < d <= 32 ensures BitIsSeen(k, d) {}
  }

  /** Gap-free arrivals: none more than one past the newest, none half the range
      behind it. */
  predicate NoGap(arrivals: seq<int>, n: nat, repaired: bool)
    requires n < |arrivals|
  {
    -HALF32 <= arrivals[n] - ArriveAll(arrivals[..n], repaired).newest <= 1
  }

  /** What is remembered is never far behind: the newest count has grown by at most
      one with each count remembered since. */
  ghost predicate RememberedIsClose(k: Counted) {
    forall r :: 0 <= r < |k.remembered| ==> k.remembered[r] >= k.newest - HALF32 - (|k.remembered| - 1 - r)
  }

  lemma CloseIsNear(k: Counted, i: int)
    requires Exact(k) && RememberedIsClose(k) && |k.remembered| <= MAX_RECENT && -HALF32 <= i - k.newest <= 1
    ensures Near(k, i)
  {
    forall j | j in k.remembered ensures -POW32 < i - j < POW32 {
      var r :| 0 <= r < |k.remembered| && k.remembered[r] == j;
      assert j in k.seen;
    }
  }

  lemma ArriveStaysClose(k: Counted, i: int)
    requires Exact(k) && Near(k, i) && RememberedIsClose(k) && |k.remembered| <= MAX_RECENT
    requires -HALF32 <= i - k.newest <= 1
    ensures RememberedIsClose(Arrive(k, i)) && |Arrive(k, i).remembered| <= MAX_RECENT
  {
    if Wire(i) in k.tracker.recent {
      var j :| 0 <= j < |k.tracker.recent| && k.tracker.recent[j] == Wire(i);
      assert k.remembered[j] in k.remembered;
      WireIsFaithful(i, k.remembered[j]);
    } else {
      var before, after := k.remembered, Arrive(k, i).remembered;
      var drop := |before| + 1 - |after|;
      forall r | 0 <= r < |after| - 1 ensures after[r] == before[r + drop] {}
    }
  }

  /** So for gap-free arrivals the tracker as written is exact across any number of
      wraps. */
  lemma {:induction false} GapFreeAcrossWraps(arrivals: seq<int>, repaired: bool)
    requires forall n :: 0 <= n < |arrivals| ==> NoGap(arrivals, n, repaired)
    ensures Exact(ArriveAll(arrivals, repaired)) && RememberedIsClose(ArriveAll(arrivals, repaired))
    ensures |ArriveAll(arrivals, repaired).remembered| <= MAX_RECENT
  {
    if arrivals == [] {
      FreshIsExact(repaired);
    } else {
      var n := |arrivals| - 1;
      var front := arrivals[..n];
      forall j | 0 <= j < n ensures NoGap(front, j, repaired) { FrontHasNoGap(arrivals, n, j, repaired); }
      GapFreeAcrossWraps(front, repaired);
      LastHasNoGap(arrivals, repaired);
    }
  }

  lemma FrontHasNoGap(arrivals: seq<int>, n: nat, j: nat, repaired: bool)
    requires j < n < |arrivals| && NoGap(arrivals, j, repaired)
    ensures NoGap(arrivals[..n], j, repaired)
  {
    assert arrivals[..n][..j] == arrivals[..j] && arrivals[..n][j] == arrivals[j];
  }

  lemma LastHasNoGap(arrivals: seq<int>, repaired: bool)
    requires arrivals != [] && NoGap(arrivals, |arrivals| - 1, repaired)
    requires var k := ArriveAll(arrivals[..|arrivals| - 1], repaired);
             Exact(k) && RememberedIsClose(k) && |k.remembered| <= MAX_RECENT
    ensures var k := ArriveAll(arrivals, repaired);
            Exact(k) && RememberedIsClose(k) && |k.remembered| <= MAX_RECENT
  {
    var k, i := ArriveAll(arrivals[..|arrivals| - 1], repaired), arrivals[|arrivals| - 1];
    CloseIsNear(k, i);
    ArriveKeepsExact(k, i);
    ArriveStaysClose(k, i);
  }
}
