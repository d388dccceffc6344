/** The classic BPF machine: accumulator A, index register X and sixteen scratch
    words, all 32 bits wide, running over one captured packet. */
module Bpf {
  import opened Words

  datatype Option<+T> = None | Some(value: T)

  // Atoms number the scratch words first, then A, then X.
  const BPF_MEMWORDS := 16
  const A_ATOM := 16
  const X_ATOM := 17
  const N_ATOMS := 18
  type Reg = k: nat | k < BPF_MEMWORDS
  type Atom = k: nat | k < N_ATOMS

  type State = s: seq<Word> | |s| == N_ATOMS witness seq(N_ATOMS, _ => 0)

  // The captured bytes, and the length the packet had on the wire.
  datatype Packet = Packet(bytes: seq<Byte>, wirelen: Word)

  datatype Size = W | H | B
  datatype AluOp = Add | Sub | Mul | Div | And | Or | Lsh | Rsh
  datatype JmpOp = Jeq | Jgt | Jge | Jset
  datatype Src = K(k: Word) | X

  datatype Stmt =
    | Nop
    | LdAbs(size: Size, off: Word)
    | LdInd(size: Size, off: Word)
    | LdLen
    | LdImm(k: Word)
    | LdMem(r: Reg)
    | LdxImm(k: Word)
    | LdxMsh(off: Word)
    | LdxMem(r: Reg)
    | St(r: Reg)
    | Stx(r: Reg)
    | Alu(op: AluOp, src: Src)
    | Neg
    | Tax
    | Txa

  // The statement that ends a block.
  datatype Branch = Jmp(jop: JmpOp, src: Src) | RetK(k: Word) | RetA

  // Lost: the walk ran out of fuel, or control left the program.
  datatype Outcome = Return(v: Word) | Fault | Lost

  function Width(size: Size): nat {
    match size case W => 4 case H => 2 case B => 1
  }

  /** A big-endian load; None when it leaves the captured bytes. */
  function LoadAt(p: Packet, i: nat, size: Size): Option<Word> {
    if |p.bytes| < i + Width(size) then None
    else match size
      case W => Some(Pack4(p.bytes[i], p.bytes[i+1], p.bytes[i+2], p.bytes[i+3]))
      case H => Some(Pack2(p.bytes[i], p.bytes[i+1]))
      case B => Some(p.bytes[i])
  }

  function Load(p: Packet, off: Word, size: Size): Option<Word> { LoadAt(p, off, size) }

  /** Four times the low nibble of a byte: the length of an IPv4 header. */
  function Msh(p: Packet, off: Word): Option<Word> {
    match Load(p, off, B)
    case None => None
    case Some(v) => Some(Shl(Band(v, 0xf), 2))
  }

  function Compute(op: AluOp, a: Word, b: Word): Option<Word> {
    match op
    case Add => Some(Plus(a, b))
    case Sub => Some(Diff(a, b))
    case Mul => Some(Times(a, b))
    case Div => if b == 0 then None else Some(Over(a, b))
    case And => Some(Band(a, b))
    case Or => Some(Bor(a, b))
    case Lsh => Some(Shl(a, b))
    case Rsh => Some(Shr(a, b))
  }

  function Operand(src: Src, st: State): Word {
    match src case K(k) => k case X => st[X_ATOM]
  }

  /** The atom a statement defines: atomdef. */
  function Def(s: Stmt): Atom
    requires !s.Nop?
  {
    match s
    case LdxImm(_) => X_ATOM
    case LdxMsh(_) => X_ATOM
    case LdxMem(_) => X_ATOM
    case Tax => X_ATOM
    case St(r) => r
    case Stx(r) => r
    case _ => A_ATOM
  }

  /** The atoms a statement reads: atomuse. */
  function Uses(s: Stmt): set<Atom> {
    match s
    case LdInd(_, _) => {X_ATOM}
    case LdMem(r) => {r}
    case LdxMem(r) => {r}
    case St(_) => {A_ATOM}
    case Stx(_) => {X_ATOM}
    case Alu(_, src) => if src.X? then {A_ATOM, X_ATOM} else {A_ATOM}
    case Neg => {A_ATOM}
    case Tax => {A_ATOM}
    case Txa => {X_ATOM}
    case _ => {}
  }

  /** The value a statement leaves in the atom it defines; None is a fault. */
  function Value(s: Stmt, st: State, p: Packet): Option<Word>
    requires !s.Nop?
  {
    match s
    case LdAbs(size, off) => Load(p, off, size)
    case LdInd(size, off) => Load(p, Plus(st[X_ATOM], off), size)
    case LdLen => Some(p.wirelen)
    case LdImm(k) => Some(k)
    case LdMem(r) => Some(st[r])
    case LdxImm(k) => Some(k)
    case LdxMsh(off) => Msh(p, off)
    case LdxMem(r) => Some(st[r])
    case St(_) => Some(st[A_ATOM])
    case Stx(_) => Some(st[X_ATOM])
    case Alu(op, src) => Compute(op, st[A_ATOM], Operand(src, st))
    case Neg => Some(Opposite(st[A_ATOM]))
    case Tax => Some(st[A_ATOM])
    case Txa => Some(st[X_ATOM])
  }

  function Step(s: Stmt, st: State, p: Packet): Option<State> {
    if s.Nop? then Some(st)
    else match Value(s, st, p)
      case None => None
      case Some(v) => Some(st[Def(s) := v])
  }

  function Exec(ss: seq<Stmt>, st: State, p: Packet): Option<State> {
    if |ss| == 0 then Some(st)
    else match Step(ss[0], st, p)
      case None => None
      case Some(st') => Exec(ss[1..], st', p)
  }

  function Test(op: JmpOp, a: Word, b: Word): bool {
    match op
    case Jeq => a == b
    case Jgt => a > b
    case Jge => a >= b
    case Jset => Band(a, b) != 0
  }

  predicate Taken(br: Branch, st: State)
    requires br.Jmp?
  {
    Test(br.jop, st[A_ATOM], Operand(br.src, st))
  }

  lemma {:induction false} ExecConcat(s: seq<Stmt>, t: seq<Stmt>, st: State, p: Packet)
    ensures Exec(s + t, st, p)
         == (match Exec(s, st, p) case None => None case Some(mid) => Exec(t, mid, p))
  {
    if |s| == 0 {
      assert s + t == t;
    } else {
      assert (s + t)[1..] == s[1..] + t;
      match Step(s[0], st, p) {
        case None =>
        case Some(mid) => ExecConcat(s[1..], t, mid, p);
      }
    }
  }

  predicate NoDivision(ss: seq<Stmt>) { forall i {:trigger ss[i]} :: 0 <= i < |ss| ==> !(ss[i].Alu? && ss[i].op == Div) }

  /** Constants loaded into A are stored at once, and nothing is divided, unless divides says that something may be. */
  predicate Tame(ss: seq<Stmt>, divides: bool) {
    && (divides || NoDivision(ss))
    && forall i {:trigger ss[i]} :: 0 <= i < |ss| && ss[i].LdImm? ==> i + 1 < |ss| && ss[i+1].St?
  }

  lemma {:induction false} TameConcat(s: seq<Stmt>, t: seq<Stmt>, divides: bool)
    requires Tame(s, divides) && Tame(t, divides)
    ensures Tame(s + t, divides)
  {
    var u := s + t;
    forall i | 0 <= i < |u| ensures divides || !(u[i].Alu? && u[i].op == Div) {
      assert u[i] == if i < |s| then s[i] else t[i-|s|];
    }
    forall i | 0 <= i < |u| && u[i].LdImm? ensures i + 1 < |u| && u[i+1].St? {
      assert u[i] == if i < |s| then s[i] else t[i-|s|];
      assert i + 1 < |s| ==> u[i+1] == s[i+1];
      assert i >= |s| ==> u[i+1] == t[i-|s|+1];
    }
  }

  lemma {:induction false} NothingLeft(st: State, p: Packet)
    ensures Exec([], st, p) == Some(st)
  {
  }

  /** The statements that are not NOPs, in order: what slength counts. */
  function Live(ss: seq<Stmt>): (r: seq<Stmt>)
    ensures |r| <= |ss|
    ensures Nop !in r
  {
    if |ss| == 0 then []
    else if ss[0].Nop? then Live(ss[1..])
    else [ss[0]] + Live(ss[1..])
  }

  lemma {:induction false} ExecLive(ss: seq<Stmt>, st: State, p: Packet)
    ensures Exec(Live(ss), st, p) == Exec(ss, st, p)
  {
    if |ss| != 0 {
      match Step(ss[0], st, p) {
        case None =>
        case Some(mid) => ExecLive(ss[1..], mid, p);
      }
      if !ss[0].Nop? {
        assert Live(ss)[1..] == Live(ss[1..]);
      }
    }
  }
}
