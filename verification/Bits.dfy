/** The masks that record which fragments of a packet have arrived. A mask is the natural number
    its 64-bit word stands for: testing it against a one-bit word is reading a bit, and setting a
    clear bit is adding the bit's weight. */
module Bits {
  function Pow2(i: nat): (p: nat)
    ensures p >= 1
  {
    if i == 0 then 1 else 2 * Pow2(i - 1)
  }

  predicate Bit(m: nat, i: nat) {
    if i == 0 then m % 2 == 1 else Bit(m / 2, i - 1)
  }

  lemma {:induction false} SetBit(m: nat, i: nat, j: nat)
    requires !Bit(m, i)
    ensures Bit(m + Pow2(i), j) <==> Bit(m, j) || i == j
  {
    if i == 0 {
      assert (m + 1) / 2 == m / 2;
    } else {
      assert (m + Pow2(i)) / 2 == m / 2 + Pow2(i - 1);
      if j > 0 {
        SetBit(m / 2, i - 1, j - 1);
      }
    }
  }

  /** Setting a bit, for all other bits at once. */
  lemma SetBits(m: nat, i: nat)
    requires !Bit(m, i)
    ensures forall j: nat :: Bit(m + Pow2(i), j) <==> Bit(m, j) || i == j
  {
    forall j: nat ensures Bit(m + Pow2(i), j) <==> Bit(m, j) || i == j {
      SetBit(m, i, j);
    }
  }

  lemma {:induction false} NoBits(m: nat)
    requires forall j: nat :: !Bit(m, j)
    ensures m == 0
  {
    if m > 0 {
      assert !Bit(m, 0);
      forall j: nat ensures !Bit(m / 2, j) {
        assert !Bit(m, j + 1);
      }
      NoBits(m / 2);
    }
  }

  lemma {:induction false} ZeroBit(i: nat)
    ensures !Bit(0, i)
  {
    if i > 0 {
      ZeroBit(i - 1);
    }
  }

  lemma {:induction false} FullBit(c: nat, j: nat)
    ensures Bit(Pow2(c) - 1, j) <==> j < c
  {
    if c == 0 {
      ZeroBit(j);
    } else {
      assert (Pow2(c) - 1) / 2 == Pow2(c - 1) - 1;
      if j > 0 {
        FullBit(c - 1, j - 1);
      }
    }
  }

  /** A mask without bits from `c` on and with every bit below `c` is `2^c - 1`. */
  lemma {:induction false} FullMask(m: nat, c: nat)
    requires forall j: nat :: Bit(m, j) <==> j < c
    ensures m == Pow2(c) - 1
  {
    if c == 0 {
      NoBits(m);
    } else {
      forall j: nat ensures Bit(m / 2, j) <==> j < c - 1 {
        assert Bit(m, j + 1) == Bit(m / 2, j);
      }
      FullMask(m / 2, c - 1);
      assert Bit(m, 0) && m == 2 * (m / 2) + 1;
    }
  }

  /** The completeness test of the reassembly code, for a mask that has no bits from `c` on. */
  predicate IsFull(m: nat, c: nat) { m == Pow2(c) - 1 }

  lemma FullIff(m: nat, c: nat)
    requires forall j: nat :: Bit(m, j) ==> j < c
    ensures IsFull(m, c) ==> forall j: nat :: j < c ==> Bit(m, j)
    ensures !IsFull(m, c) ==> exists j: nat :: j < c && !Bit(m, j)
  {
    if IsFull(m, c) {
      forall j: nat | j < c ensures Bit(m, j) {
        FullBit(c, j);
      }
    } else if forall j: nat :: j < c ==> Bit(m, j) {
      FullMask(m, c);
    }
  }
}
