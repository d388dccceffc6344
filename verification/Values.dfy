/** Value numbers: what each number stands for, and the hash table that hands them out. */
module Values {
  import opened Words
  import opened Bpf

  /** The value of an atom as a function of the packet alone. */
  datatype Term =
    | Unknown
    | Const(k: Word)
    | AbsLoad(size: Size, off: Word)
    | IndLoad(size: Size, off: Word, x: Term)
    | Length
    | MshLoad(off: Word)
    | Apply(op: AluOp, l: Term, r: Term)
    | Negated(t: Term)

  predicate Solid(t: Term) {
    match t
    case Unknown => false
    case IndLoad(_, _, x) => Solid(x)
    case Apply(_, l, r) => Solid(l) && Solid(r)
    case Negated(u) => Solid(u)
    case _ => true
  }

  function Eval(t: Term, p: Packet): Option<Word> {
    match t
    case Unknown => None
    case Const(k) => Some(k)
    case AbsLoad(size, off) => Load(p, off, size)
    case IndLoad(size, off, x) =>
      (match Eval(x, p) case None => None case Some(v) => Load(p, Plus(v, off), size))
    case Length => Some(p.wirelen)
    case MshLoad(off) => Msh(p, off)
    case Apply(op, l, r) =>
      (match Eval(l, p)
       case None => None
       case Some(a) => match Eval(r, p) case None => None case Some(b) => Compute(op, a, b))
    case Negated(u) =>
      (match Eval(u, p) case None => None case Some(v) => Some(Opposite(v)))
  }

  // One term for each atom.
  type Sym = s: seq<Term> | |s| == N_ATOMS witness seq(N_ATOMS, _ => Unknown)

  function SymOperand(src: Src, sym: Sym): Term {
    match src case K(k) => Const(k) case X => sym[X_ATOM]
  }

  /** The term of the value a statement computes. */
  function SymValue(s: Stmt, sym: Sym): Term
    requires !s.Nop?
  {
    match s
    case LdAbs(size, off) => AbsLoad(size, off)
    case LdInd(size, off) => IndLoad(size, off, sym[X_ATOM])
    case LdLen => Length
    case LdImm(k) => Const(k)
    case LdMem(r) => sym[r]
    case LdxImm(k) => Const(k)
    case LdxMsh(off) => MshLoad(off)
    case LdxMem(r) => sym[r]
    case St(_) => sym[A_ATOM]
    case Stx(_) => sym[X_ATOM]
    case Alu(op, src) => Apply(op, sym[A_ATOM], SymOperand(src, sym))
    case Neg => Negated(sym[A_ATOM])
    case Tax => sym[A_ATOM]
    case Txa => sym[X_ATOM]
  }

  function SymStep(s: Stmt, sym: Sym): Sym {
    if s.Nop? then sym else sym[Def(s) := SymValue(s, sym)]
  }

  /** On packet p the value v is what the term says, if the term depends on nothing unknown. */
  predicate TermHolds(t: Term, v: Word, p: Packet) { Solid(t) ==> Eval(t, p) == Some(v) }

  predicate Holds(sym: Sym, st: State, p: Packet) {
    forall a: Atom {:trigger sym[a]} {:trigger st[a]} :: TermHolds(sym[a], st[a], p)
  }

  /** The atoms of S have solid terms. */
  predicate Firm(sym: Sym, S: set<Atom>) {
    forall a {:trigger a in S} {:trigger sym[a]} :: a in S ==> Solid(sym[a])
  }

  lemma {:induction false} SymValueSound(s: Stmt, sym: Sym, st: State, p: Packet)
    requires !s.Nop? && Holds(sym, st, p) && Step(s, st, p).Some?
    ensures TermHolds(SymValue(s, sym), Step(s, st, p).value[Def(s)], p)
    ensures Firm(sym, Uses(s)) ==> Solid(SymValue(s, sym))
  {
    hide Load, Msh, Compute, Plus, Opposite;
    assert TermHolds(sym[A_ATOM], st[A_ATOM], p) && TermHolds(sym[X_ATOM], st[X_ATOM], p);
    match s
    case LdInd(_, _) => assert X_ATOM in Uses(s);
    case LdMem(r) => assert r in Uses(s) && TermHolds(sym[r], st[r], p);
    case LdxMem(r) => assert r in Uses(s) && TermHolds(sym[r], st[r], p);
    case St(_) => assert A_ATOM in Uses(s);
    case Stx(_) => assert X_ATOM in Uses(s);
    case Alu(_, src) =>
      assert A_ATOM in Uses(s) && (src.X? ==> X_ATOM in Uses(s));
      assert TermHolds(SymOperand(src, sym), Operand(src, st), p);
    case Neg => assert A_ATOM in Uses(s);
    case Tax => assert A_ATOM in Uses(s);
    case Txa => assert X_ATOM in Uses(s);
    case _ =>
  }

  /** Symbolic execution follows the machine. */
  lemma {:induction false} SymStepSound(s: Stmt, sym: Sym, st: State, p: Packet)
    requires Holds(sym, st, p) && Step(s, st, p).Some?
    ensures Holds(SymStep(s, sym), Step(s, st, p).value, p)
  {
    hide TermHolds, Value, SymValue, Def, Uses;
    if !s.Nop? { SymValueSound(s, sym, st, p); }
  }

  // The operation codes value numbers are keyed by.
  datatype Code = CImm | CAbs(size: Size) | CInd(size: Size) | CLen | CMsh | CAlu(op: AluOp, x: bool) | CNeg

  datatype Key = Key(code: Code, v0: nat, v1: nat)

  // The operands are numbers below n, or a constant.
  predicate KeyBelow(key: Key, n: nat) {
    && (if key.code.CAlu? || key.code.CNeg? then key.v0 < n else key.v0 < M)
    && (key.code.CAlu? || key.code.CInd? ==> key.v1 < n)
    && (key.code.CImm? ==> key.v1 == 0)
  }

  function TermOf(key: Key, den: seq<Term>): Term
    requires KeyBelow(key, |den|)
  {
    match key.code
    case CImm => Const(key.v0)
    case CAbs(size) => AbsLoad(size, key.v0)
    case CInd(size) => IndLoad(size, key.v0, den[key.v1])
    case CLen => Length
    case CMsh => MshLoad(key.v0)
    case CAlu(op, _) => Apply(op, den[key.v0], den[key.v1])
    case CNeg => Negated(den[key.v0])
  }

  const MODULUS := 213

  function AluCode(op: AluOp): Word {
    match op
    case Add => 0x00 case Sub => 0x10 case Mul => 0x20 case Div => 0x30
    case Or => 0x40 case And => 0x50 case Lsh => 0x60 case Rsh => 0x70
  }

  function SizeCode(size: Size): Word {
    match size case W => 0x00 case H => 0x08 case B => 0x10
  }

  // The opcode of the instruction a key stands for.
  function Opcode(code: Code): Word {
    match code
    case CImm => 0x00
    case CAbs(size) => 0x20 + SizeCode(size)
    case CInd(size) => 0x40 + SizeCode(size)
    case CLen => 0x80
    case CMsh => 0xb1
    case CAlu(op, x) => 0x04 + AluCode(op) + (if x then 0x08 else 0)
    case CNeg => 0x84
  }

  function Hash(key: Key): (h: nat)
    ensures h < MODULUS
  {
    Bxor(Bxor(Opcode(key.code), Shl(key.v0 % M, 4)), Shl(key.v1 % M, 8)) % MODULUS
  }

  datatype Valnode = Valnode(key: Key, val: nat)

  // Number n was given to keys[n]; the chains hold every number under its key, once.
  predicate Chained(hashtbl: seq<seq<Valnode>>, keys: seq<Key>) {
    && |hashtbl| == MODULUS && |keys| > 0
    && (forall h, i {:trigger hashtbl[h][i]} :: 0 <= h < MODULUS && 0 <= i < |hashtbl[h]| ==>
          hashtbl[h][i].val < |keys| && hashtbl[h][i].key == keys[hashtbl[h][i].val] && hashtbl[h][i].val > 0)
    && (forall n {:trigger keys[n]} :: 0 < n < |keys| ==> Valnode(keys[n], n) in hashtbl[Hash(keys[n])])
    && forall m, n :: 0 < m < |keys| && 0 < n < |keys| && keys[m] == keys[n] ==> m == n
  }

  // vmap[n] is the constant number n stands for, if its key is an immediate load.
  predicate Mapped(vmap: seq<Option<Word>>, keys: seq<Key>) {
    && 0 < |keys| <= |vmap|
    && vmap[0] == None
    && (forall n {:trigger vmap[n]} :: 0 < n < |keys| ==>
          vmap[n] == if keys[n].code.CImm? && keys[n].v0 < M then Some(keys[n].v0) else None)
    && forall n {:trigger vmap[n]} :: |keys| <= n < |vmap| ==> vmap[n] == None
  }

  lemma {:induction false} MappedPush(vmap: seq<Option<Word>>, keys: seq<Key>, key: Key, n: nat)
    requires Mapped(vmap, keys) && |keys| < |vmap| && KeyBelow(key, n)
    ensures Mapped(if key.code.CImm? then vmap[|keys| := Some(key.v0)] else vmap, keys + [key])
  {
  }

  predicate Denoted(den: seq<Term>, keys: seq<Key>) {
    && |den| == |keys| > 0 && den[0] == Unknown
    && forall n {:trigger den[n]} {:trigger keys[n]} :: 0 < n < |keys| ==>
         KeyBelow(keys[n], n) && KeyBelow(keys[n], |den|) && den[n] == TermOf(keys[n], den)
  }

  lemma {:induction false} TermOfPush(key: Key, den: seq<Term>, t: Term)
    requires KeyBelow(key, |den|)
    ensures TermOf(key, den + [t]) == TermOf(key, den)
  {
  }

  lemma {:induction false} KeyBelowMore(key: Key, m: nat, n: nat)
    requires KeyBelow(key, m) && m <= n
    ensures KeyBelow(key, n)
  {
  }

  lemma {:induction false} DenotedPush(den: seq<Term>, keys: seq<Key>, key: Key)
    requires Denoted(den, keys) && KeyBelow(key, |keys|)
    ensures |den| == |keys| && Denoted(den + [TermOf(key, den)], keys + [key])
  {
    hide KeyBelow, TermOf;
    var den', keys' := den + [TermOf(key, den)], keys + [key];
    forall n | 0 < n < |keys'| ensures KeyBelow(keys'[n], n) && KeyBelow(keys'[n], |den'|) && den'[n] == TermOf(keys'[n], den') {
      if n < |keys| { KeyBelowMore(keys[n], n, |den|); }
      KeyBelowMore(keys'[n], |den|, |den'|);
      TermOfPush(keys'[n], den, TermOf(key, den));
    }
  }

  lemma {:induction false} DenotedAt(den: seq<Term>, keys: seq<Key>, n: nat)
    requires Denoted(den, keys) && 0 < n < |keys|
    ensures KeyBelow(keys[n], |den|) && den[n] == TermOf(keys[n], den)
  {
  }

  lemma {:induction false} ChainedPush(hashtbl: seq<seq<Valnode>>, keys: seq<Key>, key: Key)
    requires Chained(hashtbl, keys) && forall n :: 0 < n < |keys| ==> keys[n] != key
    ensures var h := Hash(key); |hashtbl| == MODULUS && Chained(hashtbl[h := [Valnode(key, |keys|)] + hashtbl[h]], keys + [key])
  {
    hide Hash;
    var h := Hash(key);
    var tbl := hashtbl[h := [Valnode(key, |keys|)] + hashtbl[h]];
    var keys' := keys + [key];
    forall n | 0 < n < |keys'| ensures Valnode(keys'[n], n) in tbl[Hash(keys'[n])] {
      if n < |keys| {
        assert Valnode(keys[n], n) in hashtbl[Hash(keys[n])];
      } else {
        assert tbl[h][0] == Valnode(key, n);
      }
    }
    forall g, i | 0 <= g < MODULUS && 0 <= i < |tbl[g]|
      ensures tbl[g][i].val < |keys'| && tbl[g][i].key == keys'[tbl[g][i].val] && tbl[g][i].val > 0
    {
      if g == h && i > 0 { assert tbl[g][i] == hashtbl[g][i-1]; }
    }
  }

  predicate ConstsDistinct(den: seq<Term>) {
    forall m, n {:trigger den[m], den[n]} :: 0 < m < |den| && 0 < n < |den| && den[m].Const? && den[m] == den[n] ==> m == n
  }

  /** Distinct numbers stand for distinct constants. */
  lemma {:induction false} TableConsts(hashtbl: seq<seq<Valnode>>, keys: seq<Key>, den: seq<Term>)
    requires Chained(hashtbl, keys) && Denoted(den, keys)
    ensures ConstsDistinct(den)
  {
    forall m, n | 0 < m < |den| && 0 < n < |den| && den[m].Const? && den[m] == den[n] ensures m == n {
      assert keys[m] == Key(CImm, den[m].k, 0) && keys[n] == Key(CImm, den[n].k, 0);
    }
  }
}
