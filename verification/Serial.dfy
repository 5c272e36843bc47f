/** Machine words and serial number comparison (section 3.2 of RFC 1982).

    Rust's `u16` and `u32` are subset types of `int`; wrapping arithmetic is
    written out. Unbounded counters are `nat` and are put on the wire with
    `Residue16` / `Residue32`. */
module Serial {
  const POW16: int := 0x1_0000
  const POW32: int := 0x1_0000_0000
  const MAX32: int := 0xFFFF_FFFF

  // `u16::MAX / 2` and `u32::MAX / 2`
  const HALF16: int := 0x7FFF
  const HALF32: int := 0x7FFF_FFFF

  type u8 = x: int | 0 <= x < 0x100
  type u16 = x: int | 0 <= x < 0x1_0000
  type u32 = x: int | 0 <= x < 0x1_0000_0000

  function WrapInc16(a: u16): u16 { if a == 0xFFFF then 0 else a + 1 }

  function WrapInc32(a: u32): u32 { if a == MAX32 then 0 else a + 1 }

  /** `a.wrapping_sub(b)`: how far `a` is ahead of `b`, going forward. */
  function Ahead16(a: u16, b: u16): u16 { if a >= b then a - b else a - b + POW16 }

  function Ahead32(a: u32, b: u32): u32 { if a >= b then a - b else a - b + POW32 }

  function Residue16(n: nat): u16 { n % POW16 }

  function Residue32(n: nat): u32 { n % POW32 }

  predicate SequenceGreaterThan(s1: u32, s2: u32) {
    || (s1 > s2 && s1 - s2 <= HALF32)
    || (s1 < s2 && s2 - s1 > HALF32)
  }

  predicate SequenceGreaterThan16(s1: u16, s2: u16) {
    || (s1 > s2 && s1 - s2 <= HALF16)
    || (s1 < s2 && s2 - s1 > HALF16)
  }

  /** The event queue's own comparison. */
  predicate SequenceLte(a: u32, b: u32) {
    Ahead32(b, a) < HALF32
  }

  /** `SequenceGreaterThan` is decided by the forward distance alone, except at
      exactly half the range, where the numerically smaller number wins. */
  lemma GreaterByDistance(a: u32, b: u32)
    ensures SequenceGreaterThan(a, b) <==>
            0 < Ahead32(a, b) <= HALF32 || (Ahead32(a, b) == HALF32 + 1 && a < b)
    ensures a != b ==> (SequenceGreaterThan(a, b) <==> !SequenceGreaterThan(b, a))
    ensures !SequenceGreaterThan(a, a)
  {
  }

  lemma GreaterByDistance16(a: u16, b: u16)
    ensures SequenceGreaterThan16(a, b) <==>
            0 < Ahead16(a, b) <= HALF16 || (Ahead16(a, b) == HALF16 + 1 && a < b)
    ensures a != b ==> (SequenceGreaterThan16(a, b) <==> !SequenceGreaterThan16(b, a))
    ensures !SequenceGreaterThan16(a, a)
  {
  }

  /** Wrapping increment counts on. */
  lemma IncResidue32(n: nat)
    ensures WrapInc32(Residue32(n)) == Residue32(n + 1)
  {
  }

  lemma IncResidue16(n: nat)
    ensures WrapInc16(Residue16(n)) == Residue16(n + 1)
  {
  }

  /** Forward distance between two residues is the counter difference. */
  lemma AheadOfResidue32(m: nat, n: nat)
    requires n <= m < n + POW32
    ensures Ahead32(Residue32(m), Residue32(n)) == m - n
  {
    assert m == POW32 * (m / POW32) + Residue32(m);
    assert n == POW32 * (n / POW32) + Residue32(n);
    assert m / POW32 == n / POW32 || m / POW32 == n / POW32 + 1;
  }

  lemma AheadOfResidue16(m: nat, n: nat)
    requires n <= m < n + POW16
    ensures Ahead16(Residue16(m), Residue16(n)) == m - n
  {
    assert m == POW16 * (m / POW16) + Residue16(m);
    assert n == POW16 * (n / POW16) + Residue16(n);
    assert m / POW16 == n / POW16 || m / POW16 == n / POW16 + 1;
  }

  /** Serial comparison agrees with the order on unbounded counters that are
      less than half the range apart, across any number of wraps. */
  lemma SerialAgrees(m: nat, n: nat)
    requires -HALF32 <= m - n <= HALF32
    ensures SequenceGreaterThan(Residue32(m), Residue32(n)) <==> m > n
    ensures Residue32(m) == Residue32(n) <==> m == n
  {
    if m >= n { AheadOfResidue32(m, n); } else { AheadOfResidue32(n, m); }
  }

  lemma SerialAgrees16(m: nat, n: nat)
    requires -HALF16 <= m - n <= HALF16
    ensures SequenceGreaterThan16(Residue16(m), Residue16(n)) <==> m > n
    ensures Residue16(m) == Residue16(n) <==> m == n
  {
    if m >= n { AheadOfResidue16(m, n); } else { AheadOfResidue16(n, m); }
  }

  /** Serial comparison is transitive exactly as long as the two distances together
      stay within half the range, or reach just past it with the tie going to `a`. */
  lemma SerialTransitive(a: u32, b: u32, c: u32)
    requires SequenceGreaterThan(a, b) && SequenceGreaterThan(b, c)
    ensures var far := Ahead32(a, b) + Ahead32(b, c);
            && (SequenceGreaterThan(a, c) <==> far <= HALF32 || (far == HALF32 + 1 && a < c))
            && (far < POW32 ==> Ahead32(a, c) == far)
  {
  }

  /** An instance where it is not. */
  lemma NotTransitive()
    ensures SequenceGreaterThan(0xC000_0001, 0x8000_0000)
            && SequenceGreaterThan(0x8000_0000, 0x4000_0000)
            && !SequenceGreaterThan(0xC000_0001, 0x4000_0000)
  {
  }

  /** The event queue's comparison against the wire comparison, exactly: they
      disagree at a forward distance of 2^31-1, and at the half-range tie when
      the tie goes to `b`. */
  lemma LteAgreesExactly(a: u32, b: u32)
    ensures (SequenceLte(a, b) <==> a == b || SequenceGreaterThan(b, a)) <==>
            !(Ahead32(b, a) == HALF32 || (Ahead32(b, a) == HALF32 + 1 && b < a))
  {
  }
}
