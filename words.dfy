/** Unsigned 64-bit machine words as bounded integers, with C's wrap-around
    arithmetic written out. */
module Words {
  const WordModulus: nat := 0x1_0000_0000_0000_0000

  /** An `unsigned long`, `uintptr_t` or `size_t` of the 64-bit target. */
  type Word = x: int | 0 <= x < WordModulus

  function Pow2(n: nat): (r: nat)
    ensures r >= 1
  {
    if n == 0 then 1 else 2 * Pow2(n - 1)
  }

  /** Unsigned subtraction `a - b`, wrapping modulo 2^64. */
  function SubWrap(a: Word, b: Word): (r: Word)
    ensures (r + b) % WordModulus == a
  {
    if a >= b then a - b else a - b + WordModulus
  }

  /** Unsigned addition `a + b`, wrapping modulo 2^64. */
  function AddWrap(a: Word, b: Word): (r: Word)
    ensures r == (a + b) % WordModulus
  {
    if a + b < WordModulus then a + b else a + b - WordModulus
  }

  /** `x & ~(2^k - 1)`: `x` with its `k` low bits cleared. */
  function ClearLowBits(x: nat, k: nat): (r: nat)
    ensures r <= x
  {
    if k == 0 then x else 2 * ClearLowBits(x / 2, k - 1)
  }

  /** The `k` low bits of `x` are all zero. */
  predicate LowBitsClear(x: nat, k: nat)
  {
    k == 0 || (x % 2 == 0 && LowBitsClear(x / 2, k - 1))
  }

  /** Clearing the low bits leaves them clear, and clearing them again changes nothing. */
  lemma {:induction false} ClearLowBitsAligns(x: nat, k: nat)
    ensures LowBitsClear(ClearLowBits(x, k), k)
    ensures ClearLowBits(ClearLowBits(x, k), k) == ClearLowBits(x, k)
  {
    if k > 0 {
      ClearLowBitsAligns(x / 2, k - 1);
      var c := ClearLowBits(x / 2, k - 1);
      assert (2 * c) / 2 == c && (2 * c) % 2 == 0;
    }
  }

  /** Clearing `k` low bits takes away less than `2^k`. */
  lemma {:induction false} ClearLowBitsBounds(x: nat, k: nat)
    ensures x - Pow2(k) < ClearLowBits(x, k) <= x
  {
    if k > 0 {
      ClearLowBitsBounds(x / 2, k - 1);
    }
  }

  lemma {:induction false} Pow2Monotone(m: nat, n: nat)
    requires m <= n
    ensures Pow2(m) <= Pow2(n)
  {
    if m < n {
      Pow2Monotone(m, n - 1);
    }
  }

  lemma {:induction false} Pow2Add(a: nat, b: nat)
    ensures Pow2(a + b) == Pow2(a) * Pow2(b)
  {
    if a > 0 {
      Pow2Add(a - 1, b);
    }
  }

  /** The top bit of a word is worth half the modulus. */
  lemma Pow2TopBit()
    ensures 2 * Pow2(63) == WordModulus
  {
    assert Pow2(8) == 0x100;
    Pow2Add(8, 8);
    assert Pow2(16) == 0x1_0000;
    Pow2Add(16, 16);
    assert Pow2(32) == 0x1_0000_0000;
    Pow2Add(32, 32);
  }
}
