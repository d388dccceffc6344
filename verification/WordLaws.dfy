/** What the operations of the machine compute, bit by bit and number by number. */
module WordLaws {
  import opened Words
  import opened Bpf

  /** Bit i of a number. */
  function Bit(a: nat, i: nat): nat { (a / Pow2(i)) % 2 }

  lemma {:induction false} HalfDiv(a: nat, m: nat)
    requires m > 0
    ensures a / (2 * m) == (a / 2) / m
  {
    var q, r := (a / 2) / m, (a / 2) % m;
    assert a / 2 == m * q + r;
    assert a == 2 * (m * q + r) + a % 2 == (2 * m) * q + (2 * r + a % 2);
    DivUnique(a, 2 * m, q, 2 * r + a % 2);
  }

  lemma {:induction false} BitHalf(a: nat, i: nat)
    requires i > 0
    ensures Bit(a, i) == Bit(a / 2, i - 1)
  {
    HalfDiv(a, Pow2(i - 1));
  }

  /** Bits of a number that is put together from its half and its lowest bit. */
  lemma {:induction false} BitPush(r: nat, c: nat, i: nat)
    requires c < 2
    ensures Bit(2 * r + c, i) == if i == 0 then c else Bit(r, i - 1)
  {
    assert (2 * r + c) / 2 == r;
    if i == 0 { assert Pow2(0) == 1; } else { BitHalf(2 * r + c, i); }
  }

  lemma {:induction false} BitLow(a: nat)
    ensures Bit(a, 0) == a % 2
  {
    assert Pow2(0) == 1;
  }

  lemma {:induction false} AndBit(a: nat, b: nat, n: nat, i: nat)
    ensures Bit(AndBits(a, b, n), i) == 1 <==> i < n && Bit(a, i) == 1 && Bit(b, i) == 1
  {
    if n == 0 {
      BitZero(i);
    } else {
      BitPush(AndBits(a / 2, b / 2, n - 1), if a % 2 == 1 && b % 2 == 1 then 1 else 0, i);
      BitsHalved(a, b, i);
      if i > 0 { AndBit(a / 2, b / 2, n - 1, i - 1); }
    }
  }

  lemma {:induction false} OrBit(a: nat, b: nat, n: nat, i: nat)
    ensures Bit(OrBits(a, b, n), i) == 1 <==> i < n && (Bit(a, i) == 1 || Bit(b, i) == 1)
  {
    if n == 0 {
      BitZero(i);
    } else {
      BitPush(OrBits(a / 2, b / 2, n - 1), if a % 2 == 1 || b % 2 == 1 then 1 else 0, i);
      BitsHalved(a, b, i);
      if i > 0 { OrBit(a / 2, b / 2, n - 1, i - 1); }
    }
  }

  lemma {:induction false} XorBit(a: nat, b: nat, n: nat, i: nat)
    ensures Bit(XorBits(a, b, n), i) == 1 <==> i < n && Bit(a, i) != Bit(b, i)
  {
    if n == 0 {
      BitZero(i);
    } else {
      BitPush(XorBits(a / 2, b / 2, n - 1), if a % 2 != b % 2 then 1 else 0, i);
      BitsHalved(a, b, i);
      if i > 0 { XorBit(a / 2, b / 2, n - 1, i - 1); }
    }
  }

  lemma {:induction false} BitsHalved(a: nat, b: nat, i: nat)
    ensures if i == 0 then Bit(a, i) == a % 2 && Bit(b, i) == b % 2 else Bit(a, i) == Bit(a / 2, i - 1) && Bit(b, i) == Bit(b / 2, i - 1)
  {
    if i == 0 {
      BitLow(a);
      BitLow(b);
    } else {
      BitHalf(a, i);
      BitHalf(b, i);
    }
  }

  lemma {:induction false} BitZero(i: nat)
    ensures Bit(0, i) == 0
  {
    DivBound(0, Pow2(i));
  }

  /** Reducing to n bits keeps the low n. */
  lemma {:induction false} BitMod(a: nat, n: nat, i: nat)
    requires i < n
    ensures Bit(a % Pow2(n), i) == Bit(a, i)
  {
    HalfMod(a, Pow2(n - 1));
    BitPush((a / 2) % Pow2(n - 1), a % 2, i);
    if i == 0 {
      BitLow(a);
    } else {
      BitHalf(a, i);
      BitMod(a / 2, n - 1, i - 1);
    }
  }

  lemma {:induction false} BitShifted(a: nat, n: nat, i: nat)
    ensures Bit(a * Pow2(n), i) == if i < n then 0 else Bit(a, i - n)
  {
    if n == 0 {
      assert Pow2(0) == 1;
    } else {
      var y := a * Pow2(n - 1);
      assert a * Pow2(n) == 2 * y + 0;
      BitPush(y, 0, i);
      if i > 0 { BitShifted(a, n - 1, i - 1); }
    }
  }

  lemma {:induction false} BitDivided(a: nat, n: nat, i: nat)
    ensures a / Pow2(n) >= 0 && Bit(a / Pow2(n), i) == Bit(a, i + n)
  {
    DivBound(a, Pow2(n));
    if n == 0 {
      assert Pow2(0) == 1;
    } else {
      HalfDiv(a, Pow2(n - 1));
      BitHalf(a, i + n);
      BitDivided(a / 2, n - 1, i);
    }
  }

  /** A number below 2^n has no bits from n on. */
  lemma {:induction false} BitBeyond(a: nat, n: nat, i: nat)
    requires a < Pow2(n) && n <= i
    ensures Bit(a, i) == 0
  {
    if n == 0 {
      BitZero(i);
    } else {
      BitHalf(a, i);
      BitBeyond(a / 2, n - 1, i - 1);
    }
  }

  /** Bit i of the conjunction, disjunction and exclusive disjunction of two words. */
  lemma {:induction false} LogicBits(a: Word, b: Word, i: nat)
    requires i < 32
    ensures Bit(Band(a, b), i) == 1 <==> Bit(a, i) == 1 && Bit(b, i) == 1
    ensures Bit(Bor(a, b), i) == 1 <==> Bit(a, i) == 1 || Bit(b, i) == 1
    ensures Bit(Bxor(a, b), i) == 1 <==> Bit(a, i) != Bit(b, i)
  {
    hide AndBits, OrBits, XorBits, Bit;
    AndBit(a, b, 32, i);
    OrBit(a, b, 32, i);
    XorBit(a, b, 32, i);
  }

  /** Bit i of a word shifted by n places. */
  lemma {:induction false} ShiftBits(a: Word, n: Word, i: nat)
    requires i < 32
    ensures Bit(Shl(a, n), i) == if n <= i then Bit(a, i - n) else 0
    ensures Bit(Shr(a, n), i) == Bit(a, i + n)
  {
    hide Bit, Pow2;
    Pow32();
    BitZero(i);
    if n < 32 {
      BitMod(a * Pow2(n), 32, i);
      BitShifted(a, n, i);
      BitDivided(a, n, i);
    } else {
      BitBeyond(a, 32, i + n);
    }
  }

  /** Words with the same bits are the same. */
  lemma {:induction false} SameBits(a: nat, b: nat, n: nat)
    requires a < Pow2(n) && b < Pow2(n) && forall i :: 0 <= i < n ==> Bit(a, i) == Bit(b, i)
    ensures a == b
  {
    if n > 0 {
      BitLow(a);
      BitLow(b);
      assert Bit(a, 0) == Bit(b, 0);
      forall i | 0 <= i < n - 1 ensures Bit(a / 2, i) == Bit(b / 2, i) {
        BitHalf(a, i + 1);
        BitHalf(b, i + 1);
      }
      SameBits(a / 2, b / 2, n - 1);
    }
  }

  // A word added up n times.
  function Summed(a: Word, n: nat): Word { if n == 0 then 0 else Plus(Summed(a, n - 1), a) }

  lemma {:induction false} TimesSummed(a: Word, n: nat)
    ensures Summed(a, n) == (a * n) % M
  {
    if n > 0 {
      TimesSummed(a, n - 1);
      var x := a * (n - 1);
      assert a * n == x + a;
      ModAdd(x, a);
    }
  }

  lemma {:induction false} ModAdd(x: nat, y: nat)
    ensures (x % M + y) % M == (x + y) % M
  {
    var q, r := (x + y) / M, (x + y) % M;
    var k := x / M;
    assert x == M * k + x % M;
    var s := x % M + y;
    assert s == M * (q - k) + r;
    MulGap(M, q, k);
    assert k <= q;
    DivUnique(s, M, q - k, r);
  }

  /** Sums, differences, products and quotients, as numbers: sums wrap around once, differences undo them, products are repeated
      sums, and the quotient of a by b is how often b fits in a. Only a division by zero has no result. */
  lemma {:induction false} ComputeNumbers(a: Word, b: Word)
    ensures Compute(Add, a, b) == Some(if a + b < M then a + b else a + b - M)
    ensures Compute(Sub, a, b).Some? && Plus(Compute(Sub, a, b).value, b) == a
    ensures Compute(Mul, a, b) == Some(Summed(a, b))
    ensures Compute(Div, a, b).None? <==> b == 0
    ensures b != 0 ==> var q := Compute(Div, a, b).value; q * b <= a < (q + 1) * b
    ensures Plus(a, Opposite(a)) == 0
  {
    hide Plus, Diff, Times, Over, Summed;
    TimesSummed(a, b);
    TimesIs(a, b);
    DiffBack(a, b);
    PlusOnce(a, b);
    if b != 0 { OverFits(a, b); }
    OppositeBack(a);
  }

  lemma {:induction false} TimesIs(a: Word, b: Word)
    ensures Times(a, b) == (a * b) % M
  {
  }

  lemma {:induction false} PlusOnce(a: Word, b: Word)
    ensures Plus(a, b) == if a + b < M then a + b else a + b - M
  {
  }

  lemma {:induction false} OppositeBack(a: Word)
    ensures Plus(a, Opposite(a)) == 0
  {
  }

  lemma {:induction false} OverFits(a: Word, b: Word)
    requires b != 0
    ensures Over(a, b) * b <= a < (Over(a, b) + 1) * b
  {
    var q := a / b;
    assert a == b * q + a % b;
    assert (q + 1) * b == b * q + b;
  }

  lemma {:induction false} DiffBack(a: Word, b: Word)
    ensures Plus(Diff(a, b), b) == a
  {
    if a >= b {
      assert Diff(a, b) == a - b;
    } else {
      assert Diff(a, b) == a - b + M;
    }
  }

  /** Logical operations and shifts, bit by bit. */
  lemma {:induction false} ComputeBits(op: AluOp, a: Word, b: Word, i: nat)
    requires i < 32 && op in {AluOp.And, AluOp.Or, Lsh, Rsh}
    ensures var c := Compute(op, a, b);
      && c.Some?
      && (op == AluOp.And ==> (Bit(c.value, i) == 1 <==> Bit(a, i) == 1 && Bit(b, i) == 1))
      && (op == AluOp.Or ==> (Bit(c.value, i) == 1 <==> Bit(a, i) == 1 || Bit(b, i) == 1))
      && (op == Lsh ==> Bit(c.value, i) == if b <= i then Bit(a, i - b) else 0)
      && (op == Rsh ==> Bit(c.value, i) == Bit(a, i + b))
  {
    hide Bit, Band, Bor, Shl, Shr;
    LogicBits(a, b, i);
    ShiftBits(a, b, i);
  }

  /** The comparisons: one of less, equal and greater holds; at least is greater or equal; a test of bits finds a common one. */
  lemma {:induction false} TestLaws(a: Word, b: Word)
    ensures Test(Jgt, a, b) <==> a - b > 0
    ensures Test(Jge, a, b) <==> !Test(Jgt, b, a)
    ensures Test(Jeq, a, b) <==> Test(Jge, a, b) && Test(Jge, b, a)
    ensures Test(Jset, a, b) <==> exists i {:trigger Bit(a, i)} :: 0 <= i < 32 && Bit(a, i) == 1 && Bit(b, i) == 1
  {
    hide Bit, Band;
    if Band(a, b) != 0 {
      CommonBit(a, b);
    } else {
      forall i | 0 <= i < 32 ensures !(Bit(a, i) == 1 && Bit(b, i) == 1) {
        LogicBits(a, b, i);
        BitZero(i);
      }
    }
  }

  lemma {:induction false} CommonBit(a: Word, b: Word)
    requires Band(a, b) != 0
    ensures exists i {:trigger Bit(a, i)} :: 0 <= i < 32 && Bit(a, i) == 1 && Bit(b, i) == 1
  {
    hide Bit, Band;
    if forall i :: 0 <= i < 32 ==> Bit(Band(a, b), i) == Bit(0, i) {
      Pow32();
      SameBits(Band(a, b), 0, 32);
    }
    var i :| 0 <= i < 32 && Bit(Band(a, b), i) != Bit(0, i);
    BitZero(i);
    BitIsBit(Band(a, b), i);
    LogicBits(a, b, i);
  }

  lemma {:induction false} BitIsBit(a: nat, i: nat)
    ensures Bit(a, i) == 0 || Bit(a, i) == 1
  {
  }

  /** A word read back from its bytes, most significant first, and a half word. */
  lemma {:induction false} BigEndian(w: Word)
    ensures Pack4(w / 16777216, w / 65536 % 256, w / 256 % 256, w % 256) == w
    ensures w < 65536 ==> Pack2(w / 256, w % 256) == w
  {
  }

  /** What s computes can depend on atom a. */
  ghost predicate Depends(s: Stmt, a: Atom)
    requires !s.Nop?
  {
    exists st: State, p: Packet, v: Word :: DependsAt(s, a, st, p, v)
  }

  predicate DependsAt(s: Stmt, a: Atom, st: State, p: Packet, v: Word)
    requires !s.Nop?
  {
    Value(s, st[a := v], p) != Value(s, st, p)
  }

  function Filled(a: Word, x: Word): State { seq(N_ATOMS, i => if i == X_ATOM then x else a) }

  function Short(): Packet { Packet(seq(4, _ => 0), 0) }

  // What an operation with this operand leaves as it is.
  function Unit(op: AluOp): Word { if op == And then ONES else if op == Mul || op == Div then 1 else 0 }

  // Operands for which an operation gives two results.
  function Left(op: AluOp): Word { if op == Or then 0 else 1 }

  function Other(op: AluOp): Word {
    match op
    case Add => 1
    case Sub => 1
    case Mul => 0
    case Div => 0
    case And => 0
    case Or => 1
    case Lsh => 32
    case Rsh => 32
  }

  lemma {:induction false} UnitOf(op: AluOp, a: Word)
    ensures Compute(op, a, Unit(op)) == Some(a)
    ensures Compute(op, Left(op), Other(op)) != Some(Left(op))
  {
    hide Band, Bor;
    BandOnes(a);
    BandZero(Left(op));
    BorZero(a);
    BorZero(1);
    ShiftBack(a);
  }

  lemma {:induction false} ShiftBack(a: Word)
    ensures Shl(a, 0) == a && Shr(a, 0) == a
  {
    assert Pow2(0) == 1;
  }

  /** The atoms a statement is said to use are exactly those that what it computes can depend on; an operation with a constant may
      be indifferent to A for some constants, but not for all. */
  lemma {:induction false} UsesExact(s: Stmt, a: Atom)
    requires !s.Nop?
    ensures !(s.Alu? && s.src.K?) ==> (a in Uses(s) <==> Depends(s, a))
    ensures s.Alu? && s.src.K? ==> (a in Uses(s) <==> exists k: Word :: Depends(Alu(s.op, K(k)), a))
  {
    hide Compute;
    if s.Alu? {
      var r := if s.src.K? then Alu(s.op, K(Unit(s.op))) else s;
      if a == A_ATOM {
        var st := Filled(0, Unit(s.op));
        UnitOf(s.op, 0);
        UnitOf(s.op, 1);
        assert DependsAt(r, a, st, Short(), 1);
        assert Depends(r, a);
      } else if a == X_ATOM && s.src.X? {
        var st := Filled(Left(s.op), Unit(s.op));
        UnitOf(s.op, Left(s.op));
        assert DependsAt(s, a, st, Short(), Other(s.op));
      } else {
        NoDependence(s, a);
        forall k: Word ensures s.src.K? ==> !Depends(Alu(s.op, K(k)), a) {
          if s.src.K? { NoDependence(Alu(s.op, K(k)), a); }
        }
      }
    } else if a !in Uses(s) {
      NoDependence(s, a);
    } else if s.LdInd? {
      var at0: Word := (M - s.off) % M;
      var at4: Word := (M + 4 - s.off) % M;
      IndexTo(s.off, 0);
      IndexTo(s.off, 4);
      var st := Filled(0, at0);
      ShortLoads(s.size);
      assert DependsAt(s, a, st, Short(), at4);
    } else {
      var st := Filled(0, 0);
      assert Opposite(1) != 0 && Opposite(0) == 0;
      assert DependsAt(s, a, st, Short(), 1);
    }
  }

  lemma {:induction false} IndexTo(off: Word, n: nat)
    requires n <= 4
    ensures Plus((M + n - off) % M, off) == n
  {
  }

  lemma {:induction false} ShortLoads(size: Size)
    ensures Load(Short(), 0, size).Some? && Load(Short(), 4, size).None?
  {
    hide Pack2, Pack4;
  }

  lemma {:induction false} NoDependence(s: Stmt, a: Atom)
    requires !s.Nop? && a !in Uses(s)
    ensures !Depends(s, a)
  {
    hide Compute, Load, Msh, Plus, Opposite;
  }
}
