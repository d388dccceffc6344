/** What numbering makes of one statement, as a function of the numbers given out. */
module Treatments {
  import opened Words
  import opened Bpf
  import opened Liveness
  import opened Values
  import opened Rewrites

  // A value number for each atom; 0 says nothing is known.
  type Vals = s: seq<nat> | |s| == N_ATOMS witness seq(N_ATOMS, _ => 0)

  predicate Issued(val: Vals, n: nat) { forall a: Atom {:trigger val[a]} :: val[a] < n }

  function SymOf(den: seq<Term>, val: Vals): (r: Sym)
    requires Issued(val, |den|)
    ensures forall a: Atom {:trigger r[a]} :: r[a] == den[val[a]]
  {
    seq(N_ATOMS, (a: nat) requires a < N_ATOMS => den[val[a]])
  }

  lemma {:induction false} SymOfGrows(den: seq<Term>, den2: seq<Term>, val: Vals)
    requires den <= den2 && Issued(val, |den|)
    ensures Issued(val, |den2|) && SymOf(den2, val) == SymOf(den, val)
  {
  }

  lemma {:induction false} SymOfSet(den: seq<Term>, val: Vals, a: Atom, v: nat)
    requires Issued(val, |den|) && v < |den|
    ensures Issued(val[a := v], |den|) && SymOf(den, val[a := v]) == SymOf(den, val)[a := den[v]]
  {
  }

  /** The table's constants are the numbers that stand for one. */
  lemma {:induction false} ConstNumber(vmap: seq<Option<Word>>, keys: seq<Key>, den: seq<Term>, n: nat)
    requires Mapped(vmap, keys) && Denoted(den, keys) && n < |keys|
    ensures den[n].Const? <==> vmap[n].Some?
    ensures vmap[n].Some? ==> den[n] == Const(vmap[n].value)
  {
  }

  /** No operation is left whose operands are known. */
  predicate Folded(s: Stmt, s2: Stmt, sym: Sym) {
    && (s2.LdInd? ==> !sym[X_ATOM].Const?)
    && (s2.LdMem? || s2.LdxMem? ==> !sym[s2.r].Const?)
    && (s2.Neg? ==> !sym[A_ATOM].Const?)
    && (s2.Alu? && s2.src.K? ==> !sym[A_ATOM].Const?)
    && (s2.Alu? && s2.src.X? ==> !sym[X_ATOM].Const?)
    && (s.Alu? && s.src == K(0) ==>
          && (s.op in {Add, Or, Lsh, Rsh} ==> s2 == Nop)
          && (s.op in {Mul, And} ==> s2 == LdImm(0)))
    && (s.Alu? && s.src == X && sym[A_ATOM] == Const(0) && s2.Alu? ==> s2.op == Sub)
  }

  // A division the folder would have to carry out by zero: a compile-time error.
  predicate DividesByZero(s: Stmt, sym: Sym) {
    s.Alu? && s.op == Div && sym[A_ATOM].Const? && SymOperand(s.src, sym) == Const(0)
  }

  // vstore: record the number of an atom, or drop the statement if the atom has it already.
  function Vstore(s: Stmt, val: Vals, a: Atom, v: nat, alter: bool): (Stmt, Vals) {
    if alter && val[a] == v then (Nop, val) else (s, val[a := v])
  }

  lemma {:induction false} PutBackNumber(val: Vals, a: Atom)
    ensures val[a := val[a]] == val
  {
  }

  /** Statement s2 with values val2 may stand for statement s with values val. */
  ghost predicate Treated(s: Stmt, val: Vals, alter: bool, s2: Stmt, val2: Vals, den: seq<Term>, den2: seq<Term>) {
    && den <= den2 && Issued(val, |den|) && Issued(val2, |den2|)
    && Rewritten(s, s2, SymOf(den, val), SymOf(den2, val2))
    && (alter ==> Folded(s, s2, SymOf(den, val)))
    && (!alter ==> s2 == s && SymOf(den2, val2) == SymStep(s, SymOf(den, val)))
    && (alter && !s2.Nop? && !s.Nop? && !s.Alu? && !s.Neg? ==> val2[Def(s)] != val[Def(s)])
  }

  /** Give the atom s sets the number v, which stands for what s or its replacement s1 computes. */
  lemma {:induction false} Stored(s: Stmt, s1: Stmt, val: Vals, v: nat, alter: bool, s2: Stmt, val2: Vals, den: seq<Term>, den2: seq<Term>)
    requires !s.Nop? && den <= den2 && Issued(val, |den|) && v < |den2|
    requires Same(s, s1, SymOf(den, val), den2[v])
    requires alter ==> Folded(s, s1, SymOf(den, val)) && !(s.Alu? && s.src == K(0))
    requires !alter ==> s1 == s && den2[v] == SymValue(s, SymOf(den, val))
    requires (s2, val2) == Vstore(s1, val, Def(s), v, alter)
    ensures Treated(s, val, alter, s2, val2, den, den2)
  {
    hide Same, Rewritten, Def, SymValue;
    SymOfGrows(den, den2, val);
    SymOfSet(den2, val, Def(s), v);
    StoreRewritten(s, s1, SymOf(den2, val), den2[v], alter && val[Def(s)] == v);
    PutBackNumber(val, Def(s));
  }

  /** The same without a check for the number the atom had. */
  lemma {:induction false} Assigned(s: Stmt, s1: Stmt, val: Vals, v: nat, alter: bool, den: seq<Term>, den2: seq<Term>)
    requires !s.Nop? && den <= den2 && Issued(val, |den|) && v < |den2|
    requires Same(s, s1, SymOf(den, val), den2[v]) && (s.Alu? || s.Neg?)
    requires alter ==> Folded(s, s1, SymOf(den, val))
    requires !alter ==> s1 == s && den2[v] == SymValue(s, SymOf(den, val))
    ensures Treated(s, val, alter, s1, val[Def(s) := v], den, den2)
  {
    hide Same, Rewritten, Def, SymValue, Folded;
    SymOfGrows(den, den2, val);
    SymOfSet(den2, val, Def(s), v);
    StoreRewritten(s, s1, SymOf(den2, val), den2[v], false);
  }

  lemma {:induction false} ComputeFails(op: AluOp, a: Word, b: Word)
    ensures Compute(op, a, b).None? <==> op == Div && b == 0
  {
  }

  /** Every number stands for something known. */
  predicate Whole(den: seq<Term>) { forall n {:trigger den[n]} :: 0 < n < |den| ==> Solid(den[n]) }

  lemma {:induction false} NopTreated(val: Vals, alter: bool, den: seq<Term>)
    requires Issued(val, |den|)
    ensures Treated(Nop, val, alter, Nop, val, den, den)
  {
    hide Holds;
    var sym := SymOf(den, val);
    forall st: State, p ensures RewrittenAt(Nop, Nop, sym, sym, st, p) {
      NopSteps(st, p);
    }
  }

  /** The number a table gives to a key; 0 if it has none. */
  ghost function NumOf(keys: seq<Key>, key: Key): (n: nat)
    ensures n > 0 ==> n < |keys| && keys[n] == key
    ensures forall i :: 0 < i < |keys| && keys[i] == key ==> n > 0
  {
    if exists i :: 0 < i < |keys| && keys[i] == key then (var i :| 0 < i < |keys| && keys[i] == key; i) else 0
  }

  predicate Distinct(keys: seq<Key>) {
    forall m, n :: 0 < m < |keys| && 0 < n < |keys| && keys[m] == keys[n] ==> m == n
  }

  lemma {:induction false} NumOfIs(keys: seq<Key>, n: nat)
    requires Distinct(keys) && 0 < n < |keys|
    ensures NumOf(keys, keys[n]) == n
  {
  }

  lemma {:induction false} NumOfGrows(keys: seq<Key>, keys2: seq<Key>, key: Key)
    requires keys <= keys2 && Distinct(keys2) && NumOf(keys, key) > 0
    ensures NumOf(keys2, key) == NumOf(keys, key)
  {
    NumOfIs(keys2, NumOf(keys, key));
  }

  /** The constant a number stands for, if its key is an immediate load. */
  function ConstAt(keys: seq<Key>, n: nat): Option<Word> {
    if 0 < n < |keys| && keys[n].code.CImm? && keys[n].v0 < M then Some(keys[n].v0) else None
  }

  lemma {:induction false} ConstAtIs(vmap: seq<Option<Word>>, keys: seq<Key>, keys2: seq<Key>, n: nat)
    requires Mapped(vmap, keys) && keys <= keys2 && n < |keys|
    ensures ConstAt(keys2, n) == vmap[n]
  {
  }

  function ConstKey(k: Word): Key { Key(CImm, k, 0) }

  // What becomes of a statement: a NOP; a statement that gives its atom a number there is, or the number of a key,
  // unless it has it; one that gives it without looking; or nothing, for a division by zero.
  datatype Plan = Skip | Copy(s: Stmt, v: nat) | Keyed(s: Stmt, key: Key) | Assign(s: Stmt, key: Key) | Fails

  ghost function PlanFor(s: Stmt, val: Vals, alter: bool, keys: seq<Key>): Plan {
    match s
    case Nop => Skip
    case LdAbs(size, off) => Keyed(s, Key(CAbs(size), off, 0))
    case LdInd(size, off) =>
      var c := ConstAt(keys, val[X_ATOM]);
      if alter && c.Some? then Keyed(LdAbs(size, Plus(off, c.value)), Key(CAbs(size), Plus(off, c.value), 0))
      else Keyed(s, Key(CInd(size), off, val[X_ATOM]))
    case LdLen => Keyed(s, Key(CLen, 0, 0))
    case LdImm(k) => Keyed(s, ConstKey(k))
    case LdxImm(k) => Keyed(s, ConstKey(k))
    case LdxMsh(off) => Keyed(s, Key(CMsh, off, 0))
    case LdMem(r) =>
      var c := ConstAt(keys, val[r]);
      Copy(if alter && c.Some? then LdImm(c.value) else s, val[r])
    case LdxMem(r) =>
      var c := ConstAt(keys, val[r]);
      Copy(if alter && c.Some? then LdxImm(c.value) else s, val[r])
    case St(_) => Copy(s, val[A_ATOM])
    case Stx(_) => Copy(s, val[X_ATOM])
    case Tax => Copy(s, val[A_ATOM])
    case Txa => Copy(s, val[X_ATOM])
    case Neg =>
      var c := ConstAt(keys, val[A_ATOM]);
      if alter && c.Some? then Assign(LdImm(Opposite(c.value)), ConstKey(Opposite(c.value)))
      else Assign(s, Key(CNeg, val[A_ATOM], 0))
    case Alu(op, src) => if src.X? then PlanAluX(op, val, alter, keys) else PlanAluK(op, src.k, val, alter, keys)
  }

  ghost function PlanAluK(op: AluOp, k: Word, val: Vals, alter: bool, keys: seq<Key>): Plan {
    var a := ConstAt(keys, val[A_ATOM]);
    if alter && k == 0 && op in {Add, Lsh, Rsh, Or} then Skip
    else if alter && k == 0 && op in {Mul, And} then Assign(LdImm(0), ConstKey(0))
    else if alter && a.Some? then PlanFold(op, a.value, k)
    else Assign(Alu(op, K(k)), Key(CAlu(op, false), val[A_ATOM], NumOf(keys, ConstKey(k))))
  }

  ghost function PlanAluX(op: AluOp, val: Vals, alter: bool, keys: seq<Key>): Plan {
    var a, x := ConstAt(keys, val[A_ATOM]), ConstAt(keys, val[X_ATOM]);
    if alter && x.Some? then
      if a.Some? then PlanFold(op, a.value, x.value)
      else Assign(Alu(op, K(x.value)), Key(CAlu(op, false), val[A_ATOM], NumOf(keys, ConstKey(x.value))))
    else if alter && a == Some(0) && op != Sub then
      if op == Add || op == Or then Copy(Txa, val[X_ATOM]) else Keyed(LdImm(0), ConstKey(0))
    else Assign(Alu(op, X), Key(CAlu(op, true), val[A_ATOM], val[X_ATOM]))
  }

  ghost function PlanFold(op: AluOp, a: Word, b: Word): Plan {
    match Compute(op, a, b) case None => Fails case Some(v) => Assign(LdImm(v), ConstKey(v))
  }

  /** The table has the numbers that the plan asks for. */
  ghost predicate Served(plan: Plan, keys: seq<Key>) {
    match plan
    case Skip => true
    case Copy(_, _) => true
    case Keyed(_, key) => NumOf(keys, key) > 0
    case Assign(_, key) => NumOf(keys, key) > 0 && (key.code.CAlu? && !key.code.x ==> key.v1 > 0)
    case Fails => false
  }

  ghost function Carry(plan: Plan, s: Stmt, val: Vals, alter: bool, keys: seq<Key>): (Stmt, Vals) {
    if s.Nop? then (s, val)
    else match plan
      case Skip => (Nop, val)
      case Copy(s1, v) => Vstore(s1, val, Def(s), v, alter)
      case Keyed(s1, key) => Vstore(s1, val, Def(s), NumOf(keys, key), alter)
      case Assign(s1, key) => (s1, val[Def(s) := NumOf(keys, key)])
      case Fails => (s, val)
  }

  /** Exactly what becomes of statement s and of the numbers of the atoms. */
  ghost predicate Exactly(s: Stmt, val: Vals, alter: bool, s2: Stmt, val2: Vals, keys: seq<Key>) {
    var plan := PlanFor(s, val, alter, keys);
    Served(plan, keys) && (s2, val2) == Carry(plan, s, val, alter, keys)
  }

  lemma {:induction false} ConstAtGrows(keys: seq<Key>, keys2: seq<Key>, n: nat)
    requires keys <= keys2 && n < |keys|
    ensures ConstAt(keys2, n) == ConstAt(keys, n)
  {
  }

  lemma {:induction false} AluGrows(op: AluOp, src: Src, val: Vals, alter: bool, keys: seq<Key>, keys2: seq<Key>)
    requires Served(PlanFor(Alu(op, src), val, alter, keys), keys) && Issued(val, |keys|) && keys <= keys2 && Distinct(keys2)
    ensures PlanFor(Alu(op, src), val, alter, keys2) == PlanFor(Alu(op, src), val, alter, keys)
  {
    hide Compute, ConstAt, NumOf, Distinct;
    ConstAtGrows(keys, keys2, val[A_ATOM]);
    ConstAtGrows(keys, keys2, val[X_ATOM]);
    var x := ConstAt(keys, val[X_ATOM]);
    var k := if src.K? then src.k else if x.Some? then x.value else 0;
    if NumOf(keys, ConstKey(k)) > 0 { NumOfGrows(keys, keys2, ConstKey(k)); }
  }

  /** Numbers given out later do not change what became of a statement. */
  lemma {:induction false} ExactlyGrows(s: Stmt, val: Vals, alter: bool, s2: Stmt, val2: Vals, keys: seq<Key>, keys2: seq<Key>)
    requires Exactly(s, val, alter, s2, val2, keys) && Issued(val, |keys|) && keys <= keys2 && Distinct(keys2)
    ensures Exactly(s, val, alter, s2, val2, keys2)
  {
    hide Compute, ConstAt, NumOf, Distinct, PlanAluK, PlanAluX;
    forall a: Atom ensures ConstAt(keys2, val[a]) == ConstAt(keys, val[a]) {
      ConstAtGrows(keys, keys2, val[a]);
    }
    if s.Alu? { AluGrows(s.op, s.src, val, alter, keys, keys2); }
    var plan := PlanFor(s, val, alter, keys);
    assert PlanFor(s, val, alter, keys2) == plan;
    if plan.Keyed? || plan.Assign? { NumOfGrows(keys, keys2, plan.key); }
  }

  lemma {:induction false} ConstAtDen(keys: seq<Key>, den: seq<Term>, n: nat)
    requires Denoted(den, keys) && n < |den|
    ensures ConstAt(keys, n) == if den[n].Const? then Some(den[n].k) else None
  {
  }

  lemma {:induction false} NumOfDen(keys: seq<Key>, den: seq<Term>, key: Key)
    requires Denoted(den, keys) && NumOf(keys, key) > 0
    ensures NumOf(keys, key) < |den| && KeyBelow(key, |den|) && den[NumOf(keys, key)] == TermOf(key, den)
  {
    hide TermOf, KeyBelow;
    DenotedAt(den, keys, NumOf(keys, key));
  }

  /** What becomes of a statement is right: it does the same, and the numbers say what it computes. */
  lemma {:induction false} TreatedLoad(s: Stmt, val: Vals, alter: bool, s2: Stmt, val2: Vals, keys: seq<Key>, den0: seq<Term>, den: seq<Term>)
    requires Denoted(den, keys) && den0 <= den && Issued(val, |den0|) && Exactly(s, val, alter, s2, val2, keys)
    requires s.LdAbs? || s.LdLen? || s.LdImm? || s.LdxImm? || s.LdxMsh?
    ensures Treated(s, val, alter, s2, val2, den0, den)
  {
    hide Denoted, Treated, Same, NumOf, Vstore;
    var key := PlanFor(s, val, alter, keys).key;
    NumOfDen(keys, den, key);
    SameSelf(s, SymOf(den0, val));
    Stored(s, s, val, NumOf(keys, key), alter, s2, val2, den0, den);
  }

  lemma {:induction false} TreatedInd(s: Stmt, val: Vals, alter: bool, s2: Stmt, val2: Vals, keys: seq<Key>, den0: seq<Term>, den: seq<Term>)
    requires Denoted(den, keys) && den0 <= den && Issued(val, |den0|) && Exactly(s, val, alter, s2, val2, keys) && s.LdInd?
    ensures Treated(s, val, alter, s2, val2, den0, den)
  {
    hide Denoted, Treated, Same, NumOf, Vstore, ConstAt, Plus;
    var plan := PlanFor(s, val, alter, keys);
    NumOfDen(keys, den, plan.key);
    ConstAtDen(keys, den, val[X_ATOM]);
    var sym := SymOf(den0, val);
    if alter && sym[X_ATOM].Const? { IndToAbs(s.size, s.off, sym); } else { SameSelf(s, sym); }
    Stored(s, plan.s, val, NumOf(keys, plan.key), alter, s2, val2, den0, den);
  }

  lemma {:induction false} TreatedMove(s: Stmt, val: Vals, alter: bool, s2: Stmt, val2: Vals, keys: seq<Key>, den0: seq<Term>, den: seq<Term>)
    requires Denoted(den, keys) && den0 <= den && Issued(val, |den0|) && Exactly(s, val, alter, s2, val2, keys)
    requires s.LdMem? || s.LdxMem? || s.Tax? || s.Txa? || s.St? || s.Stx?
    ensures Treated(s, val, alter, s2, val2, den0, den)
  {
    hide Denoted, Treated, Same, NumOf, Vstore, ConstAt;
    var plan := PlanFor(s, val, alter, keys);
    var sym := SymOf(den0, val);
    SameSelf(s, sym);
    if s.LdMem? || s.LdxMem? {
      ConstAtDen(keys, den, val[s.r]);
      if sym[s.r].Const? { MemToImm(s.r, sym); }
    }
    Stored(s, plan.s, val, plan.v, alter, s2, val2, den0, den);
  }

  lemma {:induction false} TreatedNeg(val: Vals, alter: bool, s2: Stmt, val2: Vals, keys: seq<Key>, den0: seq<Term>, den: seq<Term>)
    requires Denoted(den, keys) && den0 <= den && Issued(val, |den0|) && Exactly(Neg, val, alter, s2, val2, keys)
    ensures Treated(Neg, val, alter, s2, val2, den0, den)
  {
    hide Denoted, Treated, Same, NumOf, ConstAt, Opposite;
    var plan := PlanFor(Neg, val, alter, keys);
    NumOfDen(keys, den, plan.key);
    ConstAtDen(keys, den, val[A_ATOM]);
    var sym := SymOf(den0, val);
    if alter && sym[A_ATOM].Const? { NegToImm(sym); } else { SameSelf(Neg, sym); }
    Assigned(Neg, s2, val, NumOf(keys, plan.key), alter, den0, den);
  }

  // The term of an operation with the constant that has number n.
  lemma {:induction false} OperationDen(keys: seq<Key>, den: seq<Term>, op: AluOp, v: nat, k: Word)
    requires Denoted(den, keys) && v < |den| && NumOf(keys, ConstKey(k)) > 0
    requires NumOf(keys, Key(CAlu(op, false), v, NumOf(keys, ConstKey(k)))) > 0
    ensures var n := NumOf(keys, Key(CAlu(op, false), v, NumOf(keys, ConstKey(k))));
      n < |den| && den[n] == Apply(op, den[v], Const(k))
  {
    hide Denoted, NumOf;
    NumOfDen(keys, den, ConstKey(k));
    NumOfDen(keys, den, Key(CAlu(op, false), v, NumOf(keys, ConstKey(k))));
  }

  lemma {:induction false} ConstDen(keys: seq<Key>, den: seq<Term>, k: Word)
    requires Denoted(den, keys) && NumOf(keys, ConstKey(k)) > 0
    ensures NumOf(keys, ConstKey(k)) < |den| && den[NumOf(keys, ConstKey(k))] == Const(k)
  {
    hide Denoted, NumOf;
    NumOfDen(keys, den, ConstKey(k));
  }

  lemma {:induction false} TreatedAluK(op: AluOp, k: Word, val: Vals, alter: bool, s2: Stmt, val2: Vals, keys: seq<Key>,
                                       den0: seq<Term>, den: seq<Term>)
    requires Denoted(den, keys) && den0 <= den && Issued(val, |den0|) && Exactly(Alu(op, Src.K(k)), val, alter, s2, val2, keys)
    ensures Treated(Alu(op, Src.K(k)), val, alter, s2, val2, den0, den)
  {
    hide Denoted, Treated, Same, Rewritten, NumOf, ConstAt, Compute;
    var s, sym := Alu(op, Src.K(k)), SymOf(den0, val);
    ConstAtDen(keys, den, val[A_ATOM]);
    if alter && k == 0 && op in {Add, Lsh, Rsh, Or} {
      ZeroOperand(op, sym);
      SkippedTreated(op, val, s2, den0, den);
    } else {
      var key := PlanFor(s, val, alter, keys).key;
      if alter && k == 0 && op in {Mul, And} {
        ZeroResult(op, sym);
        ConstDen(keys, den, 0);
      } else if alter && sym[A_ATOM].Const? {
        ConstDen(keys, den, key.v0);
        FoldConst(op, Src.K(k), sym);
      } else {
        SameSelf(s, sym);
        OperationDen(keys, den, op, val[A_ATOM], k);
      }
      Assigned(s, s2, val, NumOf(keys, key), alter, den0, den);
    }
  }

  lemma {:induction false} SkippedTreated(op: AluOp, val: Vals, s2: Stmt, den0: seq<Term>, den: seq<Term>)
    requires op in {Add, Lsh, Rsh, Or} && den0 <= den && Issued(val, |den0|) && s2 == Nop
    requires Rewritten(Alu(op, Src.K(0)), Nop, SymOf(den0, val), SymOf(den0, val))
    ensures Treated(Alu(op, Src.K(0)), val, true, s2, val, den0, den)
  {
    hide Rewritten;
    SymOfGrows(den0, den, val);
  }

  lemma {:induction false} TreatedAluX(op: AluOp, val: Vals, alter: bool, s2: Stmt, val2: Vals, keys: seq<Key>, den0: seq<Term>, den: seq<Term>)
    requires Denoted(den, keys) && den0 <= den && Issued(val, |den0|) && Exactly(Alu(op, X), val, alter, s2, val2, keys)
    ensures Treated(Alu(op, X), val, alter, s2, val2, den0, den)
  {
    hide Denoted, Treated, Same, NumOf, ConstAt, Compute, Vstore;
    var s, sym := Alu(op, X), SymOf(den0, val);
    ConstAtDen(keys, den, val[A_ATOM]);
    ConstAtDen(keys, den, val[X_ATOM]);
    var plan := PlanFor(s, val, alter, keys);
    if alter && sym[X_ATOM].Const? {
      if sym[A_ATOM].Const? {
        ConstDen(keys, den, plan.key.v0);
        FoldConst(op, X, sym);
      } else {
        OperationDen(keys, den, op, val[A_ATOM], sym[X_ATOM].k);
        OperandConst(op, sym);
      }
      Assigned(s, s2, val, NumOf(keys, plan.key), alter, den0, den);
    } else if alter && sym[A_ATOM] == Const(0) && op != Sub {
      ZeroAccumulator(op, sym);
      if plan.Copy? {
        Stored(s, Txa, val, plan.v, alter, s2, val2, den0, den);
      } else {
        ConstDen(keys, den, 0);
        Stored(s, LdImm(0), val, NumOf(keys, plan.key), alter, s2, val2, den0, den);
      }
    } else {
      SameSelf(s, sym);
      NumOfDen(keys, den, plan.key);
      Assigned(s, s2, val, NumOf(keys, plan.key), alter, den0, den);
    }
  }
}
