/** 32-bit unsigned arithmetic with wrap-around. */
module Words {

  const M := 0x1_0000_0000
  const ONES: Word := 0xffff_ffff
  type Word = w: nat | w < M
  type Byte = b: nat | b < 256

  function Pow2(n: nat): (r: nat)
    ensures r > 0
  {
    if n == 0 then 1 else 2 * Pow2(n - 1)
  }

  function Plus(a: Word, b: Word): Word { (a + b) % M }
  function Diff(a: Word, b: Word): Word { (a - b) % M }
  function Times(a: Word, b: Word): Word { (a * b) % M }
  function Opposite(a: Word): Word { (M - a) % M }

  function Over(a: Word, b: Word): Word
    requires b != 0
  {
    DivBound(a, b);
    a / b
  }

  lemma {:induction false} DivBound(a: nat, b: nat)
    requires b != 0
    ensures 0 <= a / b <= a
  {
    var q := a / b;
    assert a == b * q + a % b;
    MulGap(q, 0, b);
  }

  // The low n bits of the conjunction and disjunction of a and b.
  function AndBits(a: nat, b: nat, n: nat): (r: nat)
    ensures r < Pow2(n)
  {
    if n == 0 then 0 else 2 * AndBits(a / 2, b / 2, n - 1) + (if a % 2 == 1 && b % 2 == 1 then 1 else 0)
  }

  function OrBits(a: nat, b: nat, n: nat): (r: nat)
    ensures r < Pow2(n)
  {
    if n == 0 then 0 else 2 * OrBits(a / 2, b / 2, n - 1) + (if a % 2 == 1 || b % 2 == 1 then 1 else 0)
  }

  function XorBits(a: nat, b: nat, n: nat): (r: nat)
    ensures r < Pow2(n)
  {
    if n == 0 then 0 else 2 * XorBits(a / 2, b / 2, n - 1) + (if a % 2 != b % 2 then 1 else 0)
  }

  lemma {:induction false} Pow32()
    ensures Pow2(32) == M
  {
    assert Pow2(8) == 256;
    assert Pow2(16) == 65536;
    assert Pow2(24) == 16777216;
  }

  function Band(a: Word, b: Word): Word { Pow32(); AndBits(a, b, 32) }
  function Bor(a: Word, b: Word): Word { Pow32(); OrBits(a, b, 32) }
  function Bxor(a: Word, b: Word): Word { Pow32(); XorBits(a, b, 32) }

  // C leaves shifts of 32 bits and more undefined; here they shift everything out.
  function Shl(a: Word, n: Word): Word { if n < 32 then (a * Pow2(n)) % M else 0 }
  function Shr(a: Word, n: Word): Word { if n < 32 then (DivBound(a, Pow2(n)); a / Pow2(n)) else 0 }

  function Pack2(a: Byte, b: Byte): Word { a * 256 + b }
  function Pack4(a: Byte, b: Byte, c: Byte, d: Byte): Word { ((a * 256 + b) * 256 + c) * 256 + d }

  lemma {:induction false} AndBitsOnes(a: nat, n: nat)
    requires a < Pow2(n)
    ensures AndBits(a, Pow2(n) - 1, n) == a
  {
    if n != 0 { AndBitsOnes(a / 2, n - 1); }
  }

  lemma {:induction false} AndBitsZero(a: nat, n: nat)
    ensures AndBits(a, 0, n) == 0
  {
    if n != 0 { AndBitsZero(a / 2, n - 1); }
  }

  lemma {:induction false} OrBitsZero(a: nat, n: nat)
    requires a < Pow2(n)
    ensures OrBits(a, 0, n) == a && OrBits(0, a, n) == a
  {
    if n != 0 { OrBitsZero(a / 2, n - 1); }
  }

  lemma {:induction false} AndBitsSwap(a: nat, b: nat, n: nat)
    ensures AndBits(a, b, n) == AndBits(b, a, n)
  {
    if n != 0 { AndBitsSwap(a / 2, b / 2, n - 1); }
  }

  lemma {:induction false} BandOnes(a: Word)
    ensures Band(a, ONES) == a
  {
    Pow32();
    AndBitsOnes(a, 32);
  }

  lemma {:induction false} BandZero(a: Word)
    ensures Band(a, 0) == 0 && Band(0, a) == 0
  {
    AndBitsZero(a, 32);
    AndBitsSwap(a, 0, 32);
  }

  lemma {:induction false} BorZero(a: Word)
    ensures Bor(a, 0) == a && Bor(0, a) == a
  {
    Pow32();
    OrBitsZero(a, 32);
  }

  /** A masked byte: the low four bits. */
  lemma {:induction false} BandNibble(a: Word)
    ensures Band(a, 15) == a % 16
  {
    AndBitsLow(a, 4, 32);
    assert Pow2(4) == 16;
  }

  /** Four times the low nibble, as the header-length load computes it. */
  lemma {:induction false} NibbleTimesFour(a: Word)
    ensures Shl(Band(a, 15), 2) == 4 * (a % 16)
  {
    BandNibble(a);
    assert Pow2(2) == 4;
  }

  lemma {:induction false} AndBitsLow(a: nat, k: nat, n: nat)
    requires k <= n
    ensures AndBits(a, Pow2(k) - 1, n) == a % Pow2(k)
  {
    if k == 0 {
      AndBitsZero(a, n);
    } else {
      AndBitsLow(a / 2, k - 1, n - 1);
      HalfMod(a, Pow2(k - 1));
    }
  }

  lemma {:induction false} HalfMod(a: nat, m: nat)
    requires m > 0
    ensures a % (2 * m) == 2 * ((a / 2) % m) + a % 2
  {
    var q, r := (a / 2) / m, (a / 2) % m;
    assert a == 2 * (m * q + r) + a % 2 == (2 * m) * q + (2 * r + a % 2);
    DivUnique(a, 2 * m, q, 2 * r + a % 2);
  }

  lemma {:induction false} MulGap(m: nat, x: nat, y: nat)
    ensures x < y ==> m * x + m <= m * y
  {
    if x < y {
      MulGap(m, x, y - 1);
      assert m * y == m * (y - 1) + m;
    }
  }

  lemma {:induction false} DivUnique(a: nat, m: nat, q: nat, r: nat)
    requires m > 0 && a == m * q + r && r < m
    ensures a % m == r && a / m == q
  {
    var q', r' := a / m, a % m;
    assert a == m * q' + r';
    MulGap(m, q, q');
    MulGap(m, q', q);
  }

  lemma {:induction false} ShiftZero(a: Word)
    ensures Shl(a, 0) == a && Shr(a, 0) == a && Shl(0, a) == 0 && Shr(0, a) == 0
  {
  }

  /** Packing loses nothing. */
  lemma {:induction false} PackInjective(a: Byte, b: Byte, c: Byte, d: Byte, a': Byte, b': Byte, c': Byte, d': Byte)
    ensures Pack4(a, b, c, d) == Pack4(a', b', c', d') <==> a == a' && b == b' && c == c' && d == d'
    ensures Pack2(a, b) == Pack2(a', b') <==> a == a' && b == b'
  {
  }
}
