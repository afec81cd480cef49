/** Powers of two and unsigned 64-bit wrap-around, on unbounded integers. */
module Words {
  const WORD: nat := 0x1_0000_0000_0000_0000
  const U64_MAX: nat := WORD - 1

  function Pow2(k: nat): (p: nat)
    ensures p >= 1
  {
    if k == 0 then 1 else 2 * Pow2(k - 1)
  }

  lemma {:induction false} Pow2Product(a: nat, b: nat)
    ensures Pow2(a + b) == Pow2(a) * Pow2(b)
  {
    if a == 0 {
    } else {
      Pow2Product(a - 1, b);
      assert 2 * (Pow2(a - 1) * Pow2(b)) == (2 * Pow2(a - 1)) * Pow2(b);
    }
  }

  lemma {:induction false} Pow2Monotone(a: nat, b: nat)
    requires a <= b
    ensures Pow2(a) <= Pow2(b)
    decreases b - a
  {
    if a < b {
      Pow2Monotone(a + 1, b);
    }
  }

  /** 2^64 is the size of a 64-bit word. */
  lemma Pow2Of48()
    ensures Pow2(48) == 0x1_0000_0000_0000
  {
    assert Pow2(8) == 256;
    Pow2Product(8, 8);
    Pow2Product(16, 16);
    assert Pow2(32) == 0x1_0000_0000;
    Pow2Product(32, 16);
  }

  lemma Pow2Of64()
    ensures Pow2(64) == WORD
  {
    assert Pow2(8) == 256;
    Pow2Product(8, 8);
    assert Pow2(16) == 0x1_0000;
    Pow2Product(16, 16);
    assert Pow2(32) == 0x1_0000_0000;
    Pow2Product(32, 32);
  }

  /** A 64-bit value as a split point `L` sees it: 2^L times 2^(64-L) is 2^64. */
  lemma WordSplit(bits: nat)
    requires bits <= 64
    ensures Pow2(64 - bits) * Pow2(bits) == WORD
  {
    Pow2Product(bits, 64 - bits);
    Pow2Of64();
  }

  // Products, one fact at a time, so that no larger proof reasons about them.

  lemma MulMinus(a: int, b: int, d: int)
    ensures (a - b) * d == a * d - b * d
  {
  }

  lemma MulPlus(a: int, b: int, d: int)
    ensures (a + b) * d == a * d + b * d
  {
  }

  lemma MulAssoc(a: int, b: int, c: int)
    ensures (a * b) * c == a * (b * c)
  {
  }

  lemma MulSign(k: int, d: int)
    requires 0 < d
    ensures k >= 1 ==> k * d >= d
    ensures k <= -1 ==> k * d <= -d
    ensures k == 0 ==> k * d == 0
  {
    if k >= 1 {
      assert (k - 1) * d >= 0;
    } else if k <= -1 {
      assert (-1 - k) * d >= 0;
    }
  }

  lemma ProductBelow(k: int, m: int, d: int)
    requires 0 <= k < m && 0 < d
    ensures 0 <= k * d && k * d + d <= m * d
  {
    MulSign(k, d);
    MulPlus(k, 1, d);
    MulMinus(m, k + 1, d);
    MulSign(m - (k + 1), d);
  }

  lemma FactorBelow(q: int, m: int, d: int, n: int)
    requires 0 < d && q * d <= n < m * d
    ensures q < m
  {
    MulMinus(q, m, d);
    MulSign(q - m, d);
  }

  /** A multiple of d strictly between -d and d is zero. */
  lemma SmallMultiple(k: int, d: int, x: int)
    requires 0 < d && -d < x < d && k * d == x
    ensures k == 0 && x == 0
  {
    MulSign(k, d);
  }

  /** Quotient of unsigned division (`>>` when d is a power of two). */
  function Quot(n: nat, d: nat): (q: nat)
    requires d > 0
  {
    if n < d then 0 else 1 + Quot(n - d, d)
  }

  /** Remainder of unsigned division (a mask of low bits when d is a power of two). */
  function Rem(n: nat, d: nat): (r: nat)
    requires d > 0
    ensures r < d
  {
    if n < d then n else Rem(n - d, d)
  }

  lemma {:induction false} QuotRem(n: nat, d: nat)
    requires d > 0
    ensures n == Quot(n, d) * d + Rem(n, d)
  {
    if n >= d {
      QuotRem(n - d, d);
      MulPlus(1, Quot(n - d, d), d);
    }
  }

  /** Quotient and remainder are determined by their defining equation. */
  lemma QuotRemUnique(n: nat, d: nat, q: int, r: int)
    requires d > 0 && n == q * d + r && 0 <= r < d
    ensures Quot(n, d) == q && Rem(n, d) == r
  {
    QuotRem(n, d);
    var k := q - Quot(n, d);
    MulMinus(q, Quot(n, d), d);
    SmallMultiple(k, d, Rem(n, d) - r);
  }

  // A word split at a unit d with m values above it, where m * d is the whole word.

  lemma SplitParts(word: nat, m: nat, d: nat)
    requires d > 0 && m * d == WORD && word < WORD
    ensures word == Rem(word, d) + Quot(word, d) * d
    ensures Quot(word, d) < m
  {
    QuotRem(word, d);
    FactorBelow(Quot(word, d), m, d, word);
  }

  lemma SplitPacked(left: nat, right: nat, m: nat, d: nat)
    requires m * d == WORD && left < d && right < m
    ensures 0 <= left + right * d < WORD
    ensures Rem(left + right * d, d) == left && Quot(left + right * d, d) == right
  {
    ProductBelow(right, m, d);
    QuotRemUnique(left + right * d, d, right, left);
  }

  lemma SplitShift(n: nat, m: nat, d: nat)
    requires m * d == WORD && n < m && d >= 2
    ensures 2 * n <= n * d < WORD
  {
    ProductBelow(n, m, d);
    assert n * (d - 2) >= 0;
  }

  lemma ShiftGrows(n: nat, d: nat)
    requires d >= 1
    ensures n * d >= n
  {
    assert n * (d - 1) >= 0;
  }

  /** Wrapping twice is wrapping once. */
  lemma WrapAdd(a: int, b: int)
    ensures (a % WORD + b) % WORD == (a + b) % WORD
  {
  }

  lemma WrapRange(a: int)
    ensures 0 <= a < WORD ==> a % WORD == a
    ensures 0 - WORD <= a < 0 ==> a % WORD == a + WORD
    ensures WORD <= a < 2 * WORD ==> a % WORD == a - WORD
  {
  }
}
