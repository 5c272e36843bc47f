/** The ack bitfield: `ReceiveTracker` encodes which wire sequences arrived,
    `AckTracker` decodes the peer's report against what was sent. */
module Tracking {
  import opened Serial

  const MAX_RECENT: nat := 128
  const MAX_TRACKED: nat := 1024

  /** A `u32` used as a bit set, least significant bit first. */
  type Word32 = w: seq<bool> | |w| == 32 witness seq(32, i => false)

  function Zero(): Word32 { seq(32, i => false) }

  /** `w << d` as a release build computes it: the shift count is taken modulo
      the width. (A debug build panics when `d == 32`.) */
  function ShiftLeft(w: Word32, d: nat): Word32 {
    seq(32, i requires 0 <= i < 32 => i >= d % 32 && w[i - d % 32])
  }

  /** What the header's `ack` and `ack_bitfield` say about wire sequence `q`. */
  predicate Claims(ack: u32, bits: Word32, q: u32) {
    q == ack ||
    (SequenceGreaterThan(ack, q) && Ahead32(ack, q) <= 32 && bits[Ahead32(ack, q) - 1])
  }

  // ---------------------------------------------------------------- receiving

  /** The receive tracker. `repaired` selects the intended recurrence, which
      sets bit `diff - 1` and starts at `u32::MAX`; the code is `!repaired`. */
  datatype Receiver = Receiver(last: u32, bits: Word32, recent: seq<u32>, repaired: bool)

  function FreshReceiver(repaired: bool): Receiver {
    Receiver(if repaired then MAX32 else 0, Zero(), [], repaired)
  }

  function Advance(bits: Word32, d: nat, repaired: bool): Word32
    requires 0 < d <= 32
  {
    if repaired
    then seq(32, i requires 0 <= i < 32 => i == d - 1 || (i >= d && bits[i - d]))
    else ShiftLeft(bits, d)[0 := true]
  }

  function Observe(t: Receiver, s: u32): Receiver {
    if SequenceGreaterThan(s, t.last) then
      var d := Ahead32(s, t.last);
      Receiver(s, if d <= 32 then Advance(t.bits, d, t.repaired) else Zero(), t.recent, t.repaired)
    else
      var d := Ahead32(t.last, s);
      if 0 < d <= 32 then Receiver(t.last, t.bits[d - 1 := true], t.recent, t.repaired) else t
  }

  function PushBounded<T>(q: seq<T>, x: T, bound: nat): seq<T>
    requires bound > 0
  {
    (if |q| >= bound then q[1..] else q) + [x]
  }

  function Record(t: Receiver, s: u32): Receiver {
    if s in t.recent then t
    else Observe(t.(recent := PushBounded(t.recent, s, MAX_RECENT)), s)
  }

  /** Everything the tracker reports was recorded. */
  ghost predicate Sound(t: Receiver, recorded: set<u32>) {
    forall q: u32 :: Claims(t.last, t.bits, q) ==> q in recorded
  }

  /** The bitfield is exactly the recorded sequences among the 32 before `last`. */
  ghost predicate Represents(t: Receiver, recorded: set<u32>) {
    && t.last in recorded
    && forall q: u32 :: 0 < Ahead32(t.last, q) <= 32 ==>
         (t.bits[Ahead32(t.last, q) - 1] <==> q in recorded)
  }

  /** No recorded sequence is ahead of `last`. */
  ghost predicate Newest(t: Receiver, recorded: set<u32>) {
    forall q :: q in recorded ==> !SequenceGreaterThan(q, t.last)
  }

  /** The guard of the branch that goes wrong: a forward jump of 2 to 32. */
  predicate JumpOk(t: Receiver, s: u32) {
    t.repaired || s in t.recent || !SequenceGreaterThan(s, t.last)
    || Ahead32(s, t.last) == 1 || Ahead32(s, t.last) > 32
  }

  /** A tracker that has seen nothing reports sequence 0 all the same, so its
      first arrival must be 0 itself or clear the bitfield. */
  predicate FirstOk(s: u32) {
    s == 0 || 32 < s <= HALF32
  }

  /** A tracker that represents what was recorded claims exactly that. */
  lemma RepresentsClaims(t: Receiver, recorded: set<u32>, q: u32)
    requires Represents(t, recorded)
    ensures Claims(t.last, t.bits, q) <==> q in recorded && Ahead32(t.last, q) <= 32
  {
  }

  lemma RepresentsIsSound(t: Receiver, recorded: set<u32>)
    requires Represents(t, recorded)
    ensures Sound(t, recorded)
  {
    forall q: u32 | Claims(t.last, t.bits, q) ensures q in recorded {
      RepresentsClaims(t, recorded, q);
    }
  }

  /** One arrival keeps soundness whenever the guard holds, whatever else is
      going on (wraps, half-range ties, forgotten duplicates). */
  lemma RecordSound(t: Receiver, recorded: set<u32>, s: u32)
    requires Sound(t, recorded) && JumpOk(t, s)
    ensures Sound(Record(t, s), recorded + {s})
  {
    var t' := Record(t, s);
    forall q: u32 | Claims(t'.last, t'.bits, q) ensures q in recorded + {s} {
      if s !in t.recent && q != s {
        if SequenceGreaterThan(s, t.last) {
          var d := Ahead32(s, t.last);
          var e := Ahead32(s, q);
          assert 0 < e <= 32 && t'.bits[e - 1];
          assert d <= 32;
          if e == d {
            assert q == t.last;
            assert Claims(t.last, t.bits, q);
          } else {
            assert e > d && Ahead32(t.last, q) == e - d && t.bits[e - d - 1];
            assert Claims(t.last, t.bits, q);
          }
        } else {
          assert Claims(t.last, t.bits, q);
        }
      } else if s in t.recent {
        assert Claims(t.last, t.bits, q);
      }
    }
  }

  /** One arrival keeps exactness whenever the guard holds. */
  lemma RecordRepresents(t: Receiver, recorded: set<u32>, s: u32)
    requires Represents(t, recorded) && Newest(t, recorded) && JumpOk(t, s)
    requires s in t.recent ==> s in recorded
    ensures Represents(Record(t, s), recorded + {s})
  {
    var t' := Record(t, s);
    if s in t.recent {
      assert recorded + {s} == recorded;
    } else {
      forall q: u32 | 0 < Ahead32(t'.last, q) <= 32
        ensures t'.bits[Ahead32(t'.last, q) - 1] <==> q in recorded + {s}
      {
        if SequenceGreaterThan(s, t.last) {
          var d := Ahead32(s, t.last);
          var e := Ahead32(s, q);
          if e < d {
            assert SequenceGreaterThan(q, t.last);
          } else if e > d {
            assert Ahead32(t.last, q) == e - d;
          }
        }
      }
    }
  }

  /** The guard is exact: an arrival that fails it makes the tracker report
      `s - 1`, which never arrived. */
  lemma JumpLies(t: Receiver, recorded: set<u32>, s: u32)
    requires Newest(t, recorded) && !JumpOk(t, s)
    ensures !Sound(Record(t, s), recorded + {s})
  {
    var t' := Record(t, s);
    var q: u32 := Ahead32(s, 1);
    assert Ahead32(s, q) == 1 && t'.bits[0];
    assert Claims(t'.last, t'.bits, q);
    assert SequenceGreaterThan(q, t.last);
  }

  lemma FirstArrival(s: u32)
    ensures FirstOk(s) <==> Sound(Record(FreshReceiver(false), s), {s})
    ensures FirstOk(s) <==> Represents(Record(FreshReceiver(false), s), {s})
  {
    var t := Record(FreshReceiver(false), s);
    if FirstOk(s) {
      assert t.bits == Zero();
      assert t.last == s;
      assert forall i :: 0 <= i < 32 ==> !Zero()[i];
    } else {
      var q: u32 := if 0 < s <= 32 then s - 1 else 0;
      if 0 < s <= 32 { assert t.bits[0]; }
      assert Claims(t.last, t.bits, q) && q != s;
      if Represents(t, {s}) { RepresentsIsSound(t, {s}); }
    }
  }

  // ------------------------------------------------------- whole arrival runs

  function Receive(arrivals: seq<u32>, repaired: bool): Receiver {
    if arrivals == [] then FreshReceiver(repaired)
    else Record(Receive(arrivals[..|arrivals| - 1], repaired), arrivals[|arrivals| - 1])
  }

  ghost function Recorded(arrivals: seq<u32>): set<u32> { set s | s in arrivals }

  /** No arrival is ever more than half the range away from the newest one. */
  ghost predicate Windowed(arrivals: seq<u32>, repaired: bool) {
    forall k | 0 < k <= |arrivals| :: Newest(Receive(arrivals[..k], repaired), Recorded(arrivals[..k]))
  }

  /** What a receiver can check before each arrival. */
  predicate Guarded(arrivals: seq<u32>) {
    (|arrivals| > 0 ==> FirstOk(arrivals[0])) &&
    forall k | 0 < k < |arrivals| :: JumpOk(Receive(arrivals[..k], false), arrivals[k])
  }

  ghost predicate AlwaysSound(arrivals: seq<u32>) {
    forall k | 0 < k <= |arrivals| :: Sound(Receive(arrivals[..k], false), Recorded(arrivals[..k]))
  }

  lemma PrefixStep(arrivals: seq<u32>, k: nat)
    requires 0 < k <= |arrivals|
    ensures arrivals[..k][..k - 1] == arrivals[..k - 1]
    ensures Recorded(arrivals[..k]) == Recorded(arrivals[..k - 1]) + {arrivals[k - 1]}
    ensures forall repaired :: Receive(arrivals[..k], repaired)
                               == Record(Receive(arrivals[..k - 1], repaired), arrivals[k - 1])
    ensures arrivals[..|arrivals|] == arrivals
  {
    assert arrivals[..k][..k - 1] == arrivals[..k - 1];
    assert arrivals[..k] == arrivals[..k - 1] + [arrivals[k - 1]];
  }

  lemma {:induction false} RecentIsRecorded(arrivals: seq<u32>, repaired: bool)
    ensures forall s :: s in Receive(arrivals, repaired).recent ==> s in Recorded(arrivals)
    ensures Receive(arrivals, repaired).repaired == repaired
  {
    if arrivals == [] {
    } else {
      PrefixStep(arrivals, |arrivals|);
      RecentIsRecorded(arrivals[..|arrivals| - 1], repaired);
    }
  }

  /** Arrivals that pass the guard are represented exactly, at every point. */
  lemma {:induction false} GuardedIsExact(arrivals: seq<u32>, k: nat)
    requires Guarded(arrivals) && Windowed(arrivals, false)
    requires 0 < k <= |arrivals|
    ensures Represents(Receive(arrivals[..k], false), Recorded(arrivals[..k]))
    decreases k
  {
    PrefixStep(arrivals, k);
    if k == 1 {
      assert arrivals[..0] == [];
      FirstArrival(arrivals[0]);
    } else {
      GuardedIsExact(arrivals, k - 1);
      RecentIsRecorded(arrivals[..k - 1], false);
      RecordRepresents(Receive(arrivals[..k - 1], false), Recorded(arrivals[..k - 1]), arrivals[k - 1]);
    }
  }

  /** The tracker as written reports only what arrived exactly when the first
      arrival is 0 or clears the bitfield and no later one jumps ahead of the
      newest by 2 to 32. */
  lemma AckSoundness(arrivals: seq<u32>)
    requires Windowed(arrivals, false)
    ensures AlwaysSound(arrivals) <==> Guarded(arrivals)
  {
    if Guarded(arrivals) {
      forall k | 0 < k <= |arrivals| ensures Sound(Receive(arrivals[..k], false), Recorded(arrivals[..k])) {
        GuardedIsExact(arrivals, k);
        RepresentsIsSound(Receive(arrivals[..k], false), Recorded(arrivals[..k]));
      }
    } else if |arrivals| > 0 {
      if !FirstOk(arrivals[0]) {
        PrefixStep(arrivals, 1);
        assert arrivals[..0] == [];
        FirstArrival(arrivals[0]);
        assert Recorded(arrivals[..1]) == {arrivals[0]};
        assert !Sound(Receive(arrivals[..1], false), Recorded(arrivals[..1]));
      } else {
        var k :| 0 < k < |arrivals| && !JumpOk(Receive(arrivals[..k], false), arrivals[k]);
        PrefixStep(arrivals, k + 1);
        JumpLies(Receive(arrivals[..k], false), Recorded(arrivals[..k]), arrivals[k]);
        assert !Sound(Receive(arrivals[..k + 1], false), Recorded(arrivals[..k + 1]));
      }
    }
  }

  /** What a failing guard needs besides: the predecessor it will claim had arrived
      before, and at a jump of exactly 32, where the bits stay in place, so had all
      the others they will then stand for. */
  ghost predicate LuckyJump(t: Receiver, recorded: set<u32>, s: u32) {
    && Ahead32(s, 1) in recorded
    && (Ahead32(s, t.last) == 32 ==> forall k :: 1 <= k <= 31 && t.bits[k] ==> Ahead32(s, k + 1) in recorded)
  }

  /** One arrival, with no window at all. */
  lemma RecordSoundExactly(t: Receiver, recorded: set<u32>, s: u32)
    requires Sound(t, recorded) && !t.repaired
    ensures Sound(Record(t, s), recorded + {s}) <==> JumpOk(t, s) || LuckyJump(t, recorded, s)
  {
    if JumpOk(t, s) {
      RecordSound(t, recorded, s);
    } else if LuckyJump(t, recorded, s) {
      LuckyIsSound(t, recorded, s);
    } else if Sound(Record(t, s), recorded + {s}) {
      SoundIsLucky(t, recorded, s);
    }
  }

  lemma LuckyIsSound(t: Receiver, recorded: set<u32>, s: u32)
    requires Sound(t, recorded) && !JumpOk(t, s) && LuckyJump(t, recorded, s)
    ensures Sound(Record(t, s), recorded + {s})
  {
    var t', d := Record(t, s), Ahead32(s, t.last);
    forall q: u32 | Claims(t'.last, t'.bits, q) ensures q in recorded + {s} {
      if q != s && Ahead32(s, q) > 1 {
        var e := Ahead32(s, q);
        if d < 32 {
          assert e > d && t.bits[e - d - 1] && Ahead32(t.last, q) == e - d;
          assert Claims(t.last, t.bits, q);
        } else {
          assert t.bits[e - 1] && q == Ahead32(s, (e - 1) + 1);
        }
      }
    }
  }

  lemma SoundIsLucky(t: Receiver, recorded: set<u32>, s: u32)
    requires !JumpOk(t, s) && Sound(Record(t, s), recorded + {s})
    ensures LuckyJump(t, recorded, s)
  {
    var t' := Record(t, s);
    assert Claims(t'.last, t'.bits, Ahead32(s, 1));
    if Ahead32(s, t.last) == 32 {
      forall k | 1 <= k <= 31 && t.bits[k] ensures Ahead32(s, k + 1) in recorded {
        JumpOf32Bits(t, s, k);
        assert Claims(t'.last, t'.bits, Ahead32(s, k + 1));
      }
    }
  }

  ghost predicate StepsTruthfully(arrivals: seq<u32>, k: nat)
    requires k < |arrivals|
  {
    var t := Receive(arrivals[..k], false);
    JumpOk(t, arrivals[k]) || LuckyJump(t, Recorded(arrivals[..k]), arrivals[k])
  }

  /** The same over whole runs, for all arrivals: the tracker as written never
      claims what did not arrive if and only if the first arrival is 0 or clears the
      bitfield and every later jump of 2 to 32 is a lucky one. */
  lemma AckSoundnessForAll(arrivals: seq<u32>)
    ensures AlwaysSound(arrivals) <==>
            (|arrivals| > 0 ==> FirstOk(arrivals[0])) && forall k | 0 < k < |arrivals| :: StepsTruthfully(arrivals, k)
  {
    if (|arrivals| > 0 ==> FirstOk(arrivals[0])) && forall k | 0 < k < |arrivals| :: StepsTruthfully(arrivals, k) {
      forall k | 0 < k <= |arrivals| ensures Sound(Receive(arrivals[..k], false), Recorded(arrivals[..k])) {
        TruthfulIsSound(arrivals, k);
      }
    }
    if AlwaysSound(arrivals) && |arrivals| > 0 {
      FirstMustBeOk(arrivals);
      forall k | 0 < k < |arrivals| ensures StepsTruthfully(arrivals, k) { SoundStepsTruthfully(arrivals, k); }
    }
  }

  lemma SoundStepsTruthfully(arrivals: seq<u32>, k: nat)
    requires 0 < k < |arrivals| && AlwaysSound(arrivals)
    ensures StepsTruthfully(arrivals, k)
  {
    assert Sound(Receive(arrivals[..k], false), Recorded(arrivals[..k]));
    assert Sound(Receive(arrivals[..k + 1], false), Recorded(arrivals[..k + 1]));
    PrefixStep(arrivals, k + 1);
    RecentIsRecorded(arrivals[..k], false);
    RecordSoundExactly(Receive(arrivals[..k], false), Recorded(arrivals[..k]), arrivals[k]);
  }

  lemma FirstMustBeOk(arrivals: seq<u32>)
    requires arrivals != [] && Sound(Receive(arrivals[..1], false), Recorded(arrivals[..1]))
    ensures FirstOk(arrivals[0])
  {
    PrefixStep(arrivals, 1);
    assert arrivals[..0] == [] && Recorded(arrivals[..1]) == {arrivals[0]};
    FirstArrival(arrivals[0]);
  }

  lemma {:induction false} TruthfulIsSound(arrivals: seq<u32>, k: nat)
    requires 0 < k <= |arrivals| && FirstOk(arrivals[0])
    requires forall j | 0 < j < k :: StepsTruthfully(arrivals, j)
    ensures Sound(Receive(arrivals[..k], false), Recorded(arrivals[..k]))
    decreases k
  {
    PrefixStep(arrivals, k);
    if k == 1 {
      assert arrivals[..0] == [] && Recorded(arrivals[..1]) == {arrivals[0]};
      FirstArrival(arrivals[0]);
    } else {
      TruthfulIsSound(arrivals, k - 1);
      RecentIsRecorded(arrivals[..k - 1], false);
      assert StepsTruthfully(arrivals, k - 1);
      RecordSoundExactly(Receive(arrivals[..k - 1], false), Recorded(arrivals[..k - 1]), arrivals[k - 1]);
    }
  }

  /** With bit `diff - 1` set and a start at `u32::MAX` the report is true for all
      arrivals whatsoever; the only sequence reported without having arrived is
      `u32::MAX` itself, the one before the first. */
  lemma {:induction false} RepairedIsSound(arrivals: seq<u32>)
    ensures Sound(Receive(arrivals, true), Recorded(arrivals) + {MAX32})
  {
    if arrivals == [] {
      assert forall i :: 0 <= i < 32 ==> !Zero()[i];
    } else {
      var n := |arrivals| - 1;
      PrefixStep(arrivals, |arrivals|);
      RepairedIsSound(arrivals[..n]);
      RecentIsRecorded(arrivals[..n], true);
      RecordSound(Receive(arrivals[..n], true), Recorded(arrivals[..n]) + {MAX32}, arrivals[n]);
      assert Recorded(arrivals) + {MAX32} == Recorded(arrivals[..n]) + {MAX32} + {arrivals[n]};
    }
  }

  /** And it is complete as well as long as no arrival is half the range from the
      newest. */
  lemma {:induction false} RepairedIsExact(arrivals: seq<u32>)
    requires forall k | 0 <= k <= |arrivals| ::
               Newest(Receive(arrivals[..k], true), Recorded(arrivals[..k]) + {MAX32})
    ensures Represents(Receive(arrivals, true), Recorded(arrivals) + {MAX32})
  {
    if arrivals == [] {
      assert forall i :: 0 <= i < 32 ==> !Zero()[i];
    } else {
      var n := |arrivals| - 1;
      PrefixStep(arrivals, |arrivals|);
      forall k | 0 <= k <= n
        ensures Newest(Receive(arrivals[..n][..k], true), Recorded(arrivals[..n][..k]) + {MAX32})
      {
        assert arrivals[..n][..k] == arrivals[..k];
      }
      RepairedIsExact(arrivals[..n]);
      RecentIsRecorded(arrivals[..n], true);
      RecordRepresents(Receive(arrivals[..n], true), Recorded(arrivals[..n]) + {MAX32}, arrivals[n]);
      assert Recorded(arrivals) + {MAX32} == Recorded(arrivals[..n]) + {MAX32} + {arrivals[n]};
    }
  }

  lemma {:induction false} LowArrivalsLast(arrivals: seq<u32>)
    requires forall s :: s in arrivals ==> s <= HALF32
    ensures Receive(arrivals, false).last <= HALF32
    ensures forall s :: s in arrivals ==> s <= Receive(arrivals, false).last
  {
    if arrivals == [] {
    } else {
      var earlier, s := arrivals[..|arrivals| - 1], arrivals[|arrivals| - 1];
      forall q ensures q in arrivals <==> q in earlier || q == s { assert arrivals == earlier + [s]; }
      assert s in arrivals;
      LowArrivalsLast(earlier);
      RecentIsRecorded(earlier, false);
    }
  }

  /** Arrivals below half the range are windowed, so the guard decides. */
  lemma LowArrivalsAreWindowed(arrivals: seq<u32>)
    requires forall s :: s in arrivals ==> s <= HALF32
    ensures Windowed(arrivals, false)
  {
    forall k | 0 < k <= |arrivals| ensures Newest(Receive(arrivals[..k], false), Recorded(arrivals[..k])) {
      assert forall s :: s in arrivals[..k] ==> s in arrivals;
      LowArrivalsLast(arrivals[..k]);
    }
  }

  /** Arrivals start at 0 and never skip a sequence; repeats and late ones may
      come in between. */
  predicate GapFree(arrivals: seq<u32>) {
    (|arrivals| > 0 ==> arrivals[0] == 0) && forall k :: 0 < k < |arrivals| ==> FollowsOn(arrivals, k)
  }

  predicate FollowsOn(arrivals: seq<u32>, k: nat)
    requires k < |arrivals|
  {
    exists j :: 0 <= j < k && (arrivals[k] <= arrivals[j] || arrivals[k] == WrapInc32(arrivals[j]))
  }

  /** So for gap-free arrivals the tracker as written is exact. */
  lemma GapFreeIsExact(arrivals: seq<u32>)
    requires arrivals != [] && GapFree(arrivals) && forall s :: s in arrivals ==> s <= HALF32
    ensures Guarded(arrivals) && Windowed(arrivals, false)
    ensures Represents(Receive(arrivals, false), Recorded(arrivals))
  {
    forall k | 0 < k < |arrivals| ensures JumpOk(Receive(arrivals[..k], false), arrivals[k]) {
      assert FollowsOn(arrivals, k);
      var j :| 0 <= j < k && (arrivals[k] <= arrivals[j] || arrivals[k] == WrapInc32(arrivals[j]));
      assert arrivals[j] in arrivals[..k];
      assert forall s :: s in arrivals[..k] ==> s in arrivals;
      LowArrivalsLast(arrivals[..k]);
    }
    LowArrivalsAreWindowed(arrivals);
    GuardedIsExact(arrivals, |arrivals|);
    assert arrivals[..|arrivals|] == arrivals;
  }

  /** What survives for every arrival order but for a harmful jump of exactly 32: a
      set bit for `q` means `q` or its successor arrived. */
  ghost predicate NearlySound(t: Receiver, recorded: set<u32>) {
    && (forall q: u32 :: 0 < Ahead32(t.last, q) <= 32 && t.bits[Ahead32(t.last, q) - 1] ==>
          q in recorded || WrapInc32(q) in recorded)
    && (t.last in recorded || t.last == 0)
  }

  /** A new arrival exactly 32 ahead: the bits keep their place while `last` moves. */
  predicate JumpsBy32(t: Receiver, s: u32) {
    s !in t.recent && Ahead32(s, t.last) == 32
  }

  /** What a receiver can check before such an arrival: no bit that would be misread
      is set. The last bit will stand for `last` itself. */
  predicate Jump32Ok(t: Receiver, lastRecorded: bool) {
    (forall k :: 1 <= k <= 30 ==> !t.bits[k]) && (lastRecorded || !t.bits[31])
  }

  predicate NearGuard(arrivals: seq<u32>, k: nat)
    requires k < |arrivals|
  {
    var t := Receive(arrivals[..k], false);
    JumpsBy32(t, arrivals[k]) ==> Jump32Ok(t, t.last in arrivals[..k])
  }

  lemma {:induction false} BitsAreNearlySound(arrivals: seq<u32>)
    requires forall k :: 0 <= k < |arrivals| ==> NearGuard(arrivals, k)
    ensures NearlySound(Receive(arrivals, false), Recorded(arrivals))
  {
    if arrivals == [] {
    } else {
      var n := |arrivals| - 1;
      var earlier, s := arrivals[..n], arrivals[n];
      forall k | 0 <= k < n ensures NearGuard(earlier, k) {
        assert earlier[..k] == arrivals[..k];
        assert NearGuard(arrivals, k);
      }
      assert NearGuard(arrivals, n);
      BitsAreNearlySound(earlier);
      RecentIsRecorded(earlier, false);
      PrefixStep(arrivals, |arrivals|);
      if JumpsBy32(Receive(earlier, false), s) {
        JumpOf32Keeps(Receive(earlier, false), Recorded(earlier), s);
      } else {
        RecordNearlySound(Receive(earlier, false), Recorded(earlier), s);
      }
    }
  }

  lemma RecordNearlySound(t: Receiver, recorded: set<u32>, s: u32)
    requires NearlySound(t, recorded) && !t.repaired && !JumpsBy32(t, s)
    ensures NearlySound(Record(t, s), recorded + {s})
  {
    var t' := Record(t, s);
    forall q: u32 | 0 < Ahead32(t'.last, q) <= 32 && t'.bits[Ahead32(t'.last, q) - 1]
      ensures q in recorded + {s} || WrapInc32(q) in recorded + {s}
    {
      if s !in t.recent && SequenceGreaterThan(s, t.last) {
        var d := Ahead32(s, t.last);
        var e := Ahead32(s, q);
        assert d < 32;
        if e == 1 {
          assert WrapInc32(q) == s;
        } else {
          assert e > d && t.bits[e - 1 - d] && Ahead32(t.last, q) == e - d;
        }
      }
    }
  }

  /** A jump of exactly 32 keeps the bits where they are. */
  lemma JumpOf32Bits(t: Receiver, s: u32, k: nat)
    requires !t.repaired && JumpsBy32(t, s) && k < 32
    ensures Record(t, s).last == s && (Record(t, s).bits[k] <==> k == 0 || t.bits[k])
  {
    GreaterByDistance(s, t.last);
  }

  lemma JumpOf32Keeps(t: Receiver, recorded: set<u32>, s: u32)
    requires !t.repaired && JumpsBy32(t, s) && Jump32Ok(t, t.last in recorded)
    ensures NearlySound(Record(t, s), recorded + {s})
  {
    JumpOf32Bits(t, s, 0);
    forall q: u32 | 0 < Ahead32(s, q) <= 32 && Record(t, s).bits[Ahead32(s, q) - 1]
      ensures q in recorded + {s} || WrapInc32(q) in recorded + {s}
    {
      JumpOf32Bits(t, s, Ahead32(s, q) - 1);
      if Ahead32(s, q) == 1 { assert WrapInc32(q) == s; } else { assert Ahead32(s, q) == 32 && q == t.last; }
    }
  }

  /** The check is exact for arrivals that no earlier one is ahead of: a jump of 32
      keeps the weak form if and only if no bit is set that would be misread. */
  lemma JumpOf32Exactly(t: Receiver, recorded: set<u32>, s: u32)
    requires Newest(t, recorded) && !t.repaired && JumpsBy32(t, s)
    ensures NearlySound(Record(t, s), recorded + {s}) <==> Jump32Ok(t, t.last in recorded)
  {
    var t' := Record(t, s);
    if Jump32Ok(t, t.last in recorded) {
      JumpOf32Keeps(t, recorded, s);
    } else if NearlySound(t', recorded + {s}) {
      var k :| 1 <= k <= 31 && t.bits[k] && (k <= 30 || t.last !in recorded);
      var q: u32 := Ahead32(s, k + 1);
      JumpOf32Bits(t, s, k);
      assert Ahead32(s, q) == k + 1 && t'.bits[Ahead32(t'.last, q) - 1];
      assert q in recorded + {s} || WrapInc32(q) in recorded + {s};
      assert SequenceGreaterThan(WrapInc32(q), t.last) && WrapInc32(q) != s;
      assert false;
    }
  }

  ghost predicate AlwaysNearlySound(arrivals: seq<u32>) {
    forall k | 0 <= k <= |arrivals| :: NearlySound(Receive(arrivals[..k], false), Recorded(arrivals[..k]))
  }

  /** And over whole runs within the window. */
  lemma NearlySoundExactly(arrivals: seq<u32>)
    requires Windowed(arrivals, false)
    ensures AlwaysNearlySound(arrivals) <==> forall k :: 0 <= k < |arrivals| ==> NearGuard(arrivals, k)
  {
    if forall k :: 0 <= k < |arrivals| ==> NearGuard(arrivals, k) {
      forall k | 0 <= k <= |arrivals| ensures NearlySound(Receive(arrivals[..k], false), Recorded(arrivals[..k])) {
        forall j | 0 <= j < k ensures NearGuard(arrivals[..k], j) {
          assert arrivals[..k][..j] == arrivals[..j] && NearGuard(arrivals, j);
        }
        BitsAreNearlySound(arrivals[..k]);
      }
    }
    if AlwaysNearlySound(arrivals) {
      forall k | 0 <= k < |arrivals| ensures NearGuard(arrivals, k) { NearGuardIsNeeded(arrivals, k); }
    }
  }

  lemma NearGuardIsNeeded(arrivals: seq<u32>, k: nat)
    requires k < |arrivals| && Windowed(arrivals, false) && AlwaysNearlySound(arrivals)
    ensures NearGuard(arrivals, k)
  {
    var t := Receive(arrivals[..k], false);
    RecentIsRecorded(arrivals[..k], false);
    PrefixStep(arrivals, k + 1);
    assert NearlySound(Receive(arrivals[..k + 1], false), Recorded(arrivals[..k + 1]));
    if JumpsBy32(t, arrivals[k]) {
      assert k > 0 ==> Newest(t, Recorded(arrivals[..k]));
      JumpOf32Exactly(t, Recorded(arrivals[..k]), arrivals[k]);
    }
  }

  /** An instance that fails: the bit set for 3 is read as 35. */
  lemma JumpOf32Misreads()
    ensures var t := Record(Record(Record(Record(FreshReceiver(false), 5), 4), 3), 37);
            !NearlySound(t, {5, 4, 3, 37})
  {
    var t3 := Record(Record(Record(FreshReceiver(false), 5), 4), 3);
    assert t3.last == 5 && t3.bits[1] && t3.recent == [5, 4, 3] && !t3.repaired;
    var t := Record(t3, 37);
    assert Ahead32(t.last, 35) == 2 && t.bits[1];
  }

  // ------------------------------------------------------------------ sending

  /** A sent packet awaiting its ack. */
  datatype Tracked = Tracked(sequence: u32, acked: bool)

  function Track(pending: seq<Tracked>, s: u32): seq<Tracked> {
    PushBounded(pending, Tracked(s, false), MAX_TRACKED)
  }

  predicate IsReported(p: Tracked, ack: u32, bits: Word32) {
    !p.acked && Claims(ack, bits, p.sequence)
  }

  /** The sequences `process_ack` returns, in tracking order. */
  function Reported(pending: seq<Tracked>, ack: u32, bits: Word32): seq<u32> {
    if pending == [] then []
    else (if IsReported(pending[0], ack, bits) then [pending[0].sequence] else [])
         + Reported(pending[1..], ack, bits)
  }

  function Mark(p: Tracked, ack: u32, bits: Word32): Tracked {
    if IsReported(p, ack, bits) then Tracked(p.sequence, true) else p
  }

  function Marked(pending: seq<Tracked>, ack: u32, bits: Word32): seq<Tracked> {
    seq(|pending|, i requires 0 <= i < |pending| => Mark(pending[i], ack, bits))
  }

  function LeadingAcked(pending: seq<Tracked>): (k: nat)
    ensures k <= |pending|
    ensures forall i :: 0 <= i < k ==> pending[i].acked
    ensures k < |pending| ==> !pending[k].acked
  {
    if pending != [] && pending[0].acked then 1 + LeadingAcked(pending[1..]) else 0
  }

  function DropAcked(pending: seq<Tracked>): seq<Tracked> {
    pending[LeadingAcked(pending)..]
  }

  predicate Unacked(pending: seq<Tracked>, s: u32) {
    exists i :: 0 <= i < |pending| && pending[i] == Tracked(s, false)
  }

  ghost predicate DistinctSequences(pending: seq<Tracked>) {
    forall i, j :: 0 <= i < j < |pending| ==> pending[i].sequence != pending[j].sequence
  }

  lemma {:induction false} ReportedExactly(pending: seq<Tracked>, ack: u32, bits: Word32, s: u32)
    ensures s in Reported(pending, ack, bits) <==> Unacked(pending, s) && Claims(ack, bits, s)
  {
    if pending == [] {
    } else {
      ReportedExactly(pending[1..], ack, bits, s);
      if Unacked(pending, s) && pending[0] != Tracked(s, false) {
        var i :| 0 <= i < |pending| && pending[i] == Tracked(s, false);
        assert pending[1..][i - 1] == Tracked(s, false);
      }
      if Unacked(pending[1..], s) {
        var i :| 0 <= i < |pending[1..]| && pending[1..][i] == Tracked(s, false);
        assert pending[i + 1] == Tracked(s, false);
      }
    }
  }

  lemma ReportedStep(pending: seq<Tracked>, i: nat, ack: u32, bits: Word32)
    requires i < |pending|
    ensures Reported(pending[i..], ack, bits) ==
            (if IsReported(pending[i], ack, bits) then [pending[i].sequence] else [])
            + Reported(pending[i + 1..], ack, bits)
  {
    assert pending[i..][1..] == pending[i + 1..];
  }

  lemma {:induction false} ReportedOnce(pending: seq<Tracked>, ack: u32, bits: Word32)
    requires DistinctSequences(pending)
    ensures var r := Reported(pending, ack, bits);
            forall i, j :: 0 <= i < j < |r| ==> r[i] != r[j]
  {
    if pending == [] {
    } else {
      ReportedOnce(pending[1..], ack, bits);
      ReportedExactly(pending[1..], ack, bits, pending[0].sequence);
    }
  }

  /** After an ack exactly the unreported sequences are still waiting. */
  lemma AckClears(pending: seq<Tracked>, ack: u32, bits: Word32, s: u32)
    ensures var after := DropAcked(Marked(pending, ack, bits));
            Unacked(after, s) <==> Unacked(pending, s) && s !in Reported(pending, ack, bits)
  {
    ReportedExactly(pending, ack, bits, s);
    var marked := Marked(pending, ack, bits);
    var k := LeadingAcked(marked);
    var after := DropAcked(marked);
    if Unacked(pending, s) && !Claims(ack, bits, s) {
      var i :| 0 <= i < |pending| && pending[i] == Tracked(s, false);
      StillWaiting(marked, i, s);
    }
    if Unacked(after, s) {
      var i :| 0 <= i < |after| && after[i] == Tracked(s, false);
      assert Mark(pending[i + k], ack, bits) == Tracked(s, false);
      assert pending[i + k] == Tracked(s, false);
    }
  }

  lemma StillWaiting(marked: seq<Tracked>, i: nat, s: u32)
    requires i < |marked| && marked[i] == Tracked(s, false)
    ensures Unacked(DropAcked(marked), s)
  {
    var k := LeadingAcked(marked);
    assert marked[k..][i - k] == Tracked(s, false);
  }

  /** An ack tracks nothing new, and keeps sequences distinct. */
  lemma AckKeepsSequences(pending: seq<Tracked>, ack: u32, bits: Word32)
    ensures var after := DropAcked(Marked(pending, ack, bits));
            && |after| <= |pending|
            && forall i :: 0 <= i < |after| ==> after[i].sequence == pending[i + |pending| - |after|].sequence
  {
    var marked := Marked(pending, ack, bits);
    var k := LeadingAcked(marked);
    forall i | 0 <= i < |marked| - k ensures marked[k..][i].sequence == pending[i + k].sequence {
      assert marked[i + k] == Mark(pending[i + k], ack, bits);
    }
  }

  /** Encoder and decoder together: feeding the peer's `ack_data` to
      `process_ack` reports exactly the waiting sequences that the peer recorded
      among its newest and the 32 before. */
  lemma AckRoundTrip(arrivals: seq<u32>, pending: seq<Tracked>, s: u32)
    requires arrivals != [] && Windowed(arrivals, false) && Guarded(arrivals)
    ensures var t := Receive(arrivals, false);
            s in Reported(pending, t.last, t.bits) <==>
            Unacked(pending, s) && s in arrivals && Ahead32(t.last, s) <= 32
  {
    var t := Receive(arrivals, false);
    PrefixStep(arrivals, |arrivals|);
    GuardedIsExact(arrivals, |arrivals|);
    RepresentsClaims(t, Recorded(arrivals), s);
    ReportedExactly(pending, t.last, t.bits, s);
  }

  /** With the intended recurrence the same holds for all arrivals; the one
      sequence reported besides is `u32::MAX`, the one before the first. */
  lemma AckRoundTripRepaired(arrivals: seq<u32>, pending: seq<Tracked>, s: u32)
    requires forall k | 0 <= k <= |arrivals| ::
               Newest(Receive(arrivals[..k], true), Recorded(arrivals[..k]) + {MAX32})
    ensures var t := Receive(arrivals, true);
            s in Reported(pending, t.last, t.bits) <==>
            Unacked(pending, s) && (s in arrivals || s == MAX32) && Ahead32(t.last, s) <= 32
  {
    var t := Receive(arrivals, true);
    RepairedIsExact(arrivals);
    RepresentsClaims(t, Recorded(arrivals) + {MAX32}, s);
    ReportedExactly(pending, t.last, t.bits, s);
  }

  // ------------------------------------------------------------------ classes

  class ReceiveTracker {
    var lastReceived: u32
    var receivedBitfield: Word32
    var recentSequences: seq<u32>

    function Value(): Receiver
      reads this
    {
      Receiver(lastReceived, receivedBitfield, recentSequences, false)
    }

    constructor ()
      ensures Value() == FreshReceiver(false)
      ensures lastReceived == 0 && receivedBitfield == Zero() && recentSequences == []
    {
      lastReceived := 0;
      receivedBitfield := Zero();
      recentSequences := [];
    }

    method RecordReceived(sequence: u32) returns (isNew: bool)
      modifies this
      ensures Value() == Record(old(Value()), sequence)
      ensures isNew == (sequence !in old(recentSequences))
      ensures !isNew ==> Value() == old(Value())
      ensures isNew ==>
                recentSequences == (if |old(recentSequences)| < MAX_RECENT then old(recentSequences)
                                    else old(recentSequences)[1..]) + [sequence]
    {
      if sequence in recentSequences {
        return false;
      }
      if |recentSequences| >= MAX_RECENT {
        recentSequences := recentSequences[1..];
      }
      recentSequences := recentSequences + [sequence];

      if SequenceGreaterThan(sequence, lastReceived) {
        var diff := Ahead32(sequence, lastReceived);
        if diff <= 32 {
          receivedBitfield := ShiftLeft(receivedBitfield, diff)[0 := true];
        } else {
          receivedBitfield := Zero();
        }
        lastReceived := sequence;
      } else {
        var diff := Ahead32(lastReceived, sequence);
        if diff > 0 && diff <= 32 {
          receivedBitfield := receivedBitfield[diff - 1 := true];
        }
      }
      return true;
    }

    method AckData() returns (ack: u32, bits: Word32)
      ensures ack == lastReceived && bits == receivedBitfield
    {
      return lastReceived, receivedBitfield;
    }
  }

  class AckTracker {
    var pending: seq<Tracked>

    constructor ()
      ensures pending == []
    {
      pending := [];
    }

    method TrackPacket(sequence: u32)
      requires |pending| <= MAX_TRACKED
      modifies this
      ensures pending == Track(old(pending), sequence) && |pending| <= MAX_TRACKED
      ensures |pending| == if |old(pending)| < MAX_TRACKED then |old(pending)| + 1 else MAX_TRACKED
      ensures pending[..|pending| - 1] == old(pending)[|old(pending)| + 1 - |pending|..]
      ensures pending[|pending| - 1] == Tracked(sequence, false)
    {
      while |pending| >= MAX_TRACKED
        invariant pending == old(pending) || (|old(pending)| == MAX_TRACKED && pending == old(pending)[1..])
        decreases |pending|
      {
        pending := pending[1..];
      }
      pending := pending + [Tracked(sequence, false)];
    }

    method ProcessAck(ack: u32, bits: Word32) returns (acked: seq<u32>)
      modifies this
      ensures acked == Reported(old(pending), ack, bits)
      ensures pending == DropAcked(Marked(old(pending), ack, bits))
      ensures |pending| <= |old(pending)|
    {
      acked := MarkAcked(ack, bits);
      ghost var marked := pending;
      ghost var k := 0;
      while |pending| > 0 && pending[0].acked
        invariant k <= LeadingAcked(marked) && pending == marked[k..]
        decreases |pending|
      {
        pending := pending[1..];
        k := k + 1;
      }
    }

    method MarkAcked(ack: u32, bits: Word32) returns (acked: seq<u32>)
      modifies this
      ensures acked == Reported(old(pending), ack, bits)
      ensures pending == Marked(old(pending), ack, bits)
    {
      acked := [];
      var waiting, marked := pending, [];
      assert waiting[0..] == waiting;
      for i := 0 to |waiting|
        invariant acked + Reported(waiting[i..], ack, bits) == Reported(waiting, ack, bits)
        invariant |marked| == i && forall j :: 0 <= j < i ==> marked[j] == Mark(waiting[j], ack, bits)
      {
        var p := waiting[i];
        ReportedStep(waiting, i, ack, bits);
        var isAcked := false;
        if !p.acked {
          if p.sequence == ack {
            isAcked := true;
          } else if SequenceGreaterThan(ack, p.sequence) {
            var diff := Ahead32(ack, p.sequence);
            isAcked := diff <= 32 && bits[diff - 1];
          }
        }
        if isAcked {
          marked := marked + [Tracked(p.sequence, true)];
          acked := acked + [p.sequence];
        } else {
          marked := marked + [p];
        }
      }
      assert waiting[|waiting|..] == [];
      pending := marked;
    }
  }
}
