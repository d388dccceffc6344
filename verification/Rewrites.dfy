/** When a statement may be replaced by another, given what is known about the atoms. */
module Rewrites {
  import opened Words
  import opened Bpf
  import opened Liveness
  import opened Values

  /** Where s does not fault, s2 does the same and leaves a value that t describes. */
  predicate SameAt(s: Stmt, s2: Stmt, sym: Sym, t: Term, st: State, p: Packet)
    requires !s.Nop?
  {
    Holds(sym, st, p) && Step(s, st, p).Some? ==>
      Step(s2, st, p) == Step(s, st, p) && TermHolds(t, Step(s, st, p).value[Def(s)], p)
  }

  ghost predicate Same(s: Stmt, s2: Stmt, sym: Sym, t: Term) {
    && !s.Nop?
    && (Firm(sym, Uses(s)) ==> Solid(t) && forall st: State, p :: SameAt(s, s2, sym, t, st, p))
  }

  predicate RewrittenAt(s: Stmt, s2: Stmt, sym: Sym, sym2: Sym, st: State, p: Packet) {
    Holds(sym, st, p) && Step(s, st, p).Some? ==>
      Step(s2, st, p) == Step(s, st, p) && Holds(sym2, Step(s, st, p).value, p)
  }

  /** If all s reads is known, s2 does the same as s wherever s does not fault, sym2 describes
      the state afterwards, and only the atom s sets has a new description. */
  ghost predicate Rewritten(s: Stmt, s2: Stmt, sym: Sym, sym2: Sym) {
    && (if s.Nop? then sym2 == sym else sym2 == sym[Def(s) := sym2[Def(s)]])
    && (Firm(sym, Uses(s)) ==>
          && (s.Nop? || Solid(sym2[Def(s)]))
          && forall st: State, p :: RewrittenAt(s, s2, sym, sym2, st, p))
  }

  lemma {:induction false} StepSets(s: Stmt, st: State, p: Packet)
    requires !s.Nop? && Step(s, st, p).Some?
    ensures Step(s, st, p).value == st[Def(s) := Step(s, st, p).value[Def(s)]]
  {
    hide Value, Def;
  }

  lemma {:induction false} PutBack(st: State, a: Atom)
    ensures st[a := st[a]] == st
  {
  }

  lemma {:induction false} HoldsSet(sym: Sym, st: State, p: Packet, a: Atom, t: Term, v: Word)
    requires Holds(sym, st, p) && TermHolds(t, v, p)
    ensures Holds(sym[a := t], st[a := v], p)
  {
    hide TermHolds;
  }

  /** Using the replacement, or nothing at all if the atom already has the value. */
  lemma {:induction false} StoreRewritten(s: Stmt, s2: Stmt, sym: Sym, t: Term, drop: bool)
    requires Same(s, s2, sym, t) && (drop ==> sym[Def(s)] == t)
    ensures Rewritten(s, if drop then Nop else s2, sym, sym[Def(s) := t])
  {
    hide Step, Holds, Value, Def, Uses, TermHolds, Solid, Eval;
    var s3, sym2 := if drop then Nop else s2, sym[Def(s) := t];
    if Firm(sym, Uses(s)) {
      forall st: State, p ensures RewrittenAt(s, s3, sym, sym2, st, p) {
        assert SameAt(s, s2, sym, t, st, p);
        if Holds(sym, st, p) && Step(s, st, p).Some? {
          StepSets(s, st, p);
          HoldsSet(sym, st, p, Def(s), t, Step(s, st, p).value[Def(s)]);
        }
        if drop && Holds(sym, st, p) && Step(s, st, p).Some? {
          PutBack(st, Def(s));
          NopSteps(st, p);
          OneValue(t, st[Def(s)], Step(s, st, p).value[Def(s)], p) by { HoldsAt(sym, st, p, Def(s)); }
        }
      }
    }
  }

  lemma {:induction false} OneValue(t: Term, v: Word, w: Word, p: Packet)
    requires Solid(t) && TermHolds(t, v, p) && TermHolds(t, w, p)
    ensures v == w
  {
  }

  lemma {:induction false} SameSelf(s: Stmt, sym: Sym)
    requires !s.Nop?
    ensures Same(s, s, sym, SymValue(s, sym))
  {
    hide Value, Def, TermHolds, Solid, Eval, SymValue, Uses;
    if Firm(sym, Uses(s)) {
      SymSolid(s, sym);
      forall st: State, p ensures SameAt(s, s, sym, SymValue(s, sym), st, p) {
        if Holds(sym, st, p) && Step(s, st, p).Some? { SymValueSound(s, sym, st, p); }
      }
    }
  }

  lemma {:induction false} SymSolid(s: Stmt, sym: Sym)
    requires !s.Nop? && Firm(sym, Uses(s))
    ensures Solid(SymValue(s, sym))
  {
    match s
    case LdInd(_, _) => assert X_ATOM in Uses(s);
    case LdMem(r) => assert r in Uses(s);
    case LdxMem(r) => assert r in Uses(s);
    case St(_) => assert A_ATOM in Uses(s);
    case Stx(_) => assert X_ATOM in Uses(s);
    case Alu(_, src) => assert A_ATOM in Uses(s) && (src.X? ==> X_ATOM in Uses(s));
    case Neg => assert A_ATOM in Uses(s);
    case Tax => assert A_ATOM in Uses(s);
    case Txa => assert X_ATOM in Uses(s);
    case _ =>
  }

  lemma {:induction false} ConstHolds(sym: Sym, st: State, p: Packet, a: Atom)
    requires Holds(sym, st, p) && sym[a].Const?
    ensures st[a] == sym[a].k
  {
    assert TermHolds(sym[a], st[a], p);
  }

  /** ld [x+k] with x constant. */
  lemma {:induction false} IndToAbs(size: Size, off: Word, sym: Sym)
    requires sym[X_ATOM].Const?
    ensures var k := Plus(off, sym[X_ATOM].k); Same(LdInd(size, off), LdAbs(size, k), sym, AbsLoad(size, k))
  {
    hide Load, Holds;
    var k := Plus(off, sym[X_ATOM].k);
    forall st: State, p ensures SameAt(LdInd(size, off), LdAbs(size, k), sym, AbsLoad(size, k), st, p) {
      if Holds(sym, st, p) { ConstHolds(sym, st, p, X_ATOM); }
    }
  }

  /** ld M[k] and ldx M[k] with M[k] constant. */
  lemma {:induction false} MemToImm(r: Reg, sym: Sym)
    requires sym[r].Const?
    ensures Same(LdMem(r), LdImm(sym[r].k), sym, sym[r])
    ensures Same(LdxMem(r), LdxImm(sym[r].k), sym, sym[r])
  {
    hide Holds;
    forall st: State, p ensures SameAt(LdMem(r), LdImm(sym[r].k), sym, sym[r], st, p)
      && SameAt(LdxMem(r), LdxImm(sym[r].k), sym, sym[r], st, p)
    {
      if Holds(sym, st, p) { ConstHolds(sym, st, p, r); }
    }
  }

  lemma {:induction false} NegToImm(sym: Sym)
    requires sym[A_ATOM].Const?
    ensures var k := Opposite(sym[A_ATOM].k); Same(Neg, LdImm(k), sym, Const(k))
  {
    hide Holds, Opposite;
    var k := Opposite(sym[A_ATOM].k);
    forall st: State, p ensures SameAt(Neg, LdImm(k), sym, Const(k), st, p) {
      if Holds(sym, st, p) { ConstHolds(sym, st, p, A_ATOM); }
    }
  }

  /** add, or, lsh and rsh of 0 change nothing. */
  lemma {:induction false} ZeroOperand(op: AluOp, sym: Sym)
    requires op in {Add, Or, Lsh, Rsh}
    ensures Rewritten(Alu(op, K(0)), Nop, sym, sym)
  {
    hide Holds, Bor, Shl, Shr;
    var s := Alu(op, K(0));
    assert A_ATOM in Uses(s);
    forall st: State, p ensures RewrittenAt(s, Nop, sym, sym, st, p) {
      BorZero(st[A_ATOM]);
      ShiftZero(st[A_ATOM]);
      PutBack(st, A_ATOM);
    }
  }

  /** mul and and of 0 leave 0. */
  lemma {:induction false} ZeroResult(op: AluOp, sym: Sym)
    requires op in {Mul, And}
    ensures Same(Alu(op, K(0)), LdImm(0), sym, Const(0))
  {
    hide Holds, Band;
    var s := Alu(op, K(0));
    forall st: State, p ensures SameAt(s, LdImm(0), sym, Const(0), st, p) {
      BandZero(st[A_ATOM]);
    }
  }

  /** Both operands constant. */
  lemma {:induction false} FoldConst(op: AluOp, src: Src, sym: Sym)
    requires sym[A_ATOM].Const? && SymOperand(src, sym).Const?
    requires Compute(op, sym[A_ATOM].k, SymOperand(src, sym).k).Some?
    ensures var k := Compute(op, sym[A_ATOM].k, SymOperand(src, sym).k).value;
      Same(Alu(op, src), LdImm(k), sym, Const(k))
  {
    hide Holds, Compute;
    var k := Compute(op, sym[A_ATOM].k, SymOperand(src, sym).k).value;
    forall st: State, p ensures SameAt(Alu(op, src), LdImm(k), sym, Const(k), st, p) {
      if Holds(sym, st, p) {
        ConstHolds(sym, st, p, A_ATOM);
        if src.X? { ConstHolds(sym, st, p, X_ATOM); }
      }
    }
  }

  /** An X operand that is constant. */
  lemma {:induction false} OperandConst(op: AluOp, sym: Sym)
    requires sym[X_ATOM].Const?
    ensures var k := sym[X_ATOM].k; Same(Alu(op, X), Alu(op, K(k)), sym, Apply(op, sym[A_ATOM], Const(k)))
  {
    hide Compute, Holds;
    var s, k := Alu(op, X), sym[X_ATOM].k;
    assert A_ATOM in Uses(s);
    forall st: State, p ensures SameAt(s, Alu(op, K(k)), sym, Apply(op, sym[A_ATOM], Const(k)), st, p) {
      if Holds(sym, st, p) {
        ConstHolds(sym, st, p, X_ATOM);
        HoldsAt(sym, st, p, A_ATOM);
        assert Eval(Const(k), p) == Some(k);
      }
    }
  }

  lemma {:induction false} HoldsAt(sym: Sym, st: State, p: Packet, a: Atom)
    requires Holds(sym, st, p)
    ensures TermHolds(sym[a], st[a], p)
  {
  }

  /** An accumulator that is 0: the sum or disjunction is X, most other results are 0. */
  lemma {:induction false} ZeroAccumulator(op: AluOp, sym: Sym)
    requires sym[A_ATOM] == Const(0)
    ensures op in {Add, Or} ==> Same(Alu(op, X), Txa, sym, sym[X_ATOM])
    ensures op in {Mul, Div, And, Lsh, Rsh} ==> Same(Alu(op, X), LdImm(0), sym, Const(0))
  {
    hide Holds, Band, Bor, Shl, Shr, Over, Times;
    var s := Alu(op, X);
    assert X_ATOM in Uses(s);
    forall st: State, p
      ensures op in {Add, Or} ==> SameAt(s, Txa, sym, sym[X_ATOM], st, p)
      ensures op in {Mul, Div, And, Lsh, Rsh} ==> SameAt(s, LdImm(0), sym, Const(0), st, p)
    {
      if Holds(sym, st, p) {
        ConstHolds(sym, st, p, A_ATOM);
        HoldsAt(sym, st, p, X_ATOM);
        ZeroLeft(st[X_ATOM]);
      }
    }
  }

  lemma {:induction false} ZeroLeft(b: Word)
    ensures Plus(0, b) == b && Bor(0, b) == b && Band(0, b) == 0 && Times(0, b) == 0 && Shl(0, b) == 0 && Shr(0, b) == 0
    ensures b != 0 ==> Over(0, b) == 0
  {
    hide Bor, Band;
    BorZero(b);
    BandZero(b);
    if b < 32 { assert Pow2(b) > 0; }
  }
}
