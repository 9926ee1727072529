/** Powers of two, alignment and single bits, defined by halving so that every
    fact about them is a linear induction. `Pow2(m)` is the source's `1 << m`. */
module Powers {

  function Pow2(m: nat): (r: nat)
    ensures r > 0
  {
    if m == 0 then 1 else 2 * Pow2(m - 1)
  }

  /** `x` is a multiple of `Pow2(m)`: its low `m` bits are clear. */
  predicate Aligned(x: nat, m: nat) {
    m == 0 || (x % 2 == 0 && Aligned(x / 2, m - 1))
  }

  /** Bit `m` of `x`, the truth value of `x & (1 << m)`. */
  predicate Bit(x: nat, m: nat) {
    if m == 0 then x % 2 == 1 else Bit(x / 2, m - 1)
  }

  lemma Pow2Constants()
    ensures Pow2(2) == 4 && Pow2(8) == 256 && Pow2(22) == 0x40_0000
    ensures Pow2(30) == 0x4000_0000 && Pow2(31) == 0x8000_0000
  {
  }

  lemma {:induction false} Pow2Monotone(m: nat, n: nat)
    requires m <= n
    ensures Pow2(m) <= Pow2(n)
    ensures m < n ==> 2 * Pow2(m) <= Pow2(n)
  {
    if m < n { Pow2Monotone(m, n - 1); }
  }

  lemma Pow2Order(m: nat, n: nat)
    requires Pow2(m) <= Pow2(n)
    ensures m <= n
  {
  }

  lemma {:induction false} AlignedZero(m: nat)
    ensures Aligned(0, m)
  {
    if m > 0 { AlignedZero(m - 1); }
  }

  lemma {:induction false} AlignedWeaken(x: nat, m: nat, n: nat)
    requires n <= m && Aligned(x, m)
    ensures Aligned(x, n)
  {
    if n > 0 { AlignedWeaken(x / 2, m - 1, n - 1); }
  }

  /** An aligned block that starts inside a larger aligned block ends inside it. */
  lemma AlignedNested(x: nat, m: nat, y: nat, n: nat)
    requires Aligned(x, m) && Aligned(y, n) && m <= n
    requires y <= x < y + Pow2(n)
    ensures x + Pow2(m) <= y + Pow2(n)
  {
  }

  /** An aligned block is cut into two aligned halves; bit `m` tells the halves apart. */
  lemma {:induction false} AlignedHalves(x: nat, m: nat)
    requires Aligned(x, m + 1)
    ensures Aligned(x, m) && Aligned(x + Pow2(m), m)
    ensures !Bit(x, m) && Bit(x + Pow2(m), m)
  {
    if m > 0 {
      AlignedHalves(x / 2, m - 1);
      assert (x + Pow2(m)) / 2 == x / 2 + Pow2(m - 1);
    }
  }

  /** The converse: an aligned block is the lower or the upper half of the block above it. */
  lemma {:induction false} AlignedSide(x: nat, m: nat)
    requires Aligned(x, m)
    ensures !Bit(x, m) ==> Aligned(x, m + 1)
    ensures Bit(x, m) ==> x >= Pow2(m) && Aligned(x - Pow2(m), m + 1)
  {
    if m == 0 {
      if Bit(x, 0) { assert (x - 1) % 2 == 0; }
    } else {
      AlignedSide(x / 2, m - 1);
      if Bit(x, m) {
        assert (x - Pow2(m)) / 2 == x / 2 - Pow2(m - 1);
      }
    }
  }

  lemma {:induction false} BitSet(x: nat, m: nat)
    requires Bit(x, m)
    ensures x >= Pow2(m)
  {
    if m > 0 { BitSet(x / 2, m - 1); }
  }
}
