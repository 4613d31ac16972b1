/** Python's arbitrary-precision bit operations on non-negative integers:
    `1 << k`, `(m >> k) & 1` and `a | b`. */
module Bits {

  /** An element of a numpy `uint8` array. */
  type U8 = x: int | 0 <= x < 256

  /** `1 << k`. */
  function Pow2(k: nat): (r: nat)
    ensures r >= 1
  {
    if k == 0 then 1 else 2 * Pow2(k - 1)
  }

  /** Bit `k` of `m`, i.e. `(m >> k) & 1 == 1`. */
  function Bit(m: nat, k: nat): bool
  {
    if k == 0 then m % 2 == 1 else Bit(m / 2, k - 1)
  }

  /** `a | b`, one binary digit at a time. */
  function Or(a: nat, b: nat): nat
    decreases a + b
  {
    if a == 0 && b == 0 then 0
    else 2 * Or(a / 2, b / 2) + (if a % 2 == 1 || b % 2 == 1 then 1 else 0)
  }

  lemma {:induction false} ZeroBit(k: nat)
    ensures !Bit(0, k)
  {
    if k > 0 { ZeroBit(k - 1); }
  }

  /** Bit `k` of `a | b` is set iff it is set in `a` or in `b`. */
  lemma {:induction false} OrBit(a: nat, b: nat, k: nat)
    ensures Bit(Or(a, b), k) == (Bit(a, k) || Bit(b, k))
  {
    if a == 0 && b == 0 {
      ZeroBit(k);
    } else if k > 0 {
      assert Or(a, b) / 2 == Or(a / 2, b / 2);
      OrBit(a / 2, b / 2, k - 1);
    }
  }

  /** `1 << i` has exactly bit `i` set. */
  lemma {:induction false} Pow2Bit(i: nat, k: nat)
    ensures Bit(Pow2(i), k) == (i == k)
  {
    if i == 0 {
      if k > 0 { ZeroBit(k - 1); }
    } else if k > 0 {
      assert Pow2(i) / 2 == Pow2(i - 1);
      Pow2Bit(i - 1, k - 1);
    }
  }

  /** Two naturals with the same bits are equal. */
  lemma {:induction false} BitsDetermine(a: nat, b: nat)
    requires forall k: nat :: Bit(a, k) == Bit(b, k)
    ensures a == b
    decreases a + b
  {
    if a != 0 || b != 0 {
      assert Bit(a, 0) == Bit(b, 0);
      forall k: nat ensures Bit(a / 2, k) == Bit(b / 2, k) {
        assert Bit(a, k + 1) == Bit(b, k + 1);
      }
      BitsDetermine(a / 2, b / 2);
    }
  }

  /** A natural with no bit at position `n` or above is below `1 << n`. */
  lemma {:induction false} BitsBelow(m: nat, n: nat)
    requires forall k: nat :: k >= n ==> !Bit(m, k)
    ensures m < Pow2(n)
  {
    if n == 0 {
      forall k: nat ensures Bit(m, k) == Bit(0, k) { ZeroBit(k); }
      BitsDetermine(m, 0);
    } else {
      forall k: nat | k >= n - 1 ensures !Bit(m / 2, k) {
        assert Bit(m, k + 1) == Bit(m / 2, k);
      }
      BitsBelow(m / 2, n - 1);
    }
  }

  /** Python's `m >> k`: `m // 2**k`, computed as `k` floor halvings
      (Dafny's `/` by a positive divisor floors, as Python's `//` does). */
  function Shr(m: int, k: nat): int
    decreases k
  {
    if k == 0 then m else Shr(m / 2, k - 1)
  }

  /** `Bit` agrees with Python's `(m >> k) & 1`. */
  lemma {:induction false} BitAsShift(m: nat, k: nat)
    ensures Shr(m, k) >= 0
    ensures Bit(m, k) == (Shr(m, k) % 2 == 1)
  {
    if k > 0 { BitAsShift(m / 2, k - 1); }
  }

  /** Shifting right never increases a natural, and keeps a negative
      number negative. */
  lemma {:induction false} ShrBounds(m: int, k: nat)
    ensures m >= 0 ==> 0 <= Shr(m, k) <= m
    ensures m < 0 ==> Shr(m, k) < 0
    decreases k
  {
    if k > 0 { ShrBounds(m / 2, k - 1); }
  }

  /** A natural below `2^n` has no bit at position `n` or above. */
  lemma {:induction false} BitsAbove(m: nat, n: nat, k: nat)
    requires m < Pow2(n) && k >= n
    ensures !Bit(m, k)
  {
    if n == 0 {
      ZeroBit(k);
    } else {
      BitsAbove(m / 2, n - 1, k - 1);
    }
  }

  lemma {:induction false} Pow2Monotone(i: nat, j: nat)
    requires i <= j
    ensures Pow2(i) <= Pow2(j)
    decreases j
  {
    if i < j { Pow2Monotone(i, j - 1); }
  }

  lemma Pow2Values()
    ensures Pow2(0) == 1 && Pow2(1) == 2 && Pow2(2) == 4 && Pow2(3) == 8
    ensures Pow2(4) == 16 && Pow2(5) == 32 && Pow2(6) == 64 && Pow2(7) == 128
    ensures Pow2(8) == 256 && Pow2(9) == 512
  {
  }

  lemma {:induction false} Pow2Add(a: nat, b: nat)
    ensures Pow2(a + b) == Pow2(a) * Pow2(b)
  {
    if a > 0 { Pow2Add(a - 1, b); }
  }
}
