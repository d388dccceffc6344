/** Programs in the array form that BPF requires, and the image of one block in it. */
module Program {
  import opened Words
  import opened Bpf
  import opened Blocks
  import opened Layout

  // Conditional branches carry two unsigned eight-bit offsets.
  type Short = n: nat | n < 256

  datatype Insn =
    | Do(s: Stmt)
    | If(op: JmpOp, src: Src, jt: Short, jf: Short)
    | Ja(disp: nat)
    | StopK(k: Word)
    | StopA

  // A cell of a cleared array: code 0, k 0.
  const CLEARED := Do(LdImm(0))

  function RunCode(code: seq<Insn>, pc: nat, st: State, p: Packet): Outcome
    decreases |code| - pc
  {
    if pc >= |code| then Lost
    else match code[pc]
      case Do(s) => (match Step(s, st, p)
                     case None => Fault
                     case Some(st') => RunCode(code, pc + 1, st', p))
      case If(op, src, jt, jf) =>
        RunCode(code, pc + 1 + (if Test(op, st[A_ATOM], Operand(src, st)) then jt else jf), st, p)
      case Ja(d) => RunCode(code, pc + 1 + d, st, p)
      case StopK(k) => Return(k)
      case StopA => Return(st[A_ATOM])
  }

  function Dos(ss: seq<Stmt>): (r: seq<Insn>)
    ensures |r| == |ss| && forall i :: 0 <= i < |ss| ==> r[i] == Do(ss[i])
  {
    seq(|ss|, i requires 0 <= i < |ss| => Do(ss[i]))
  }

  /** dt and df are the displacements of the two successors, measured from the branch. */
  predicate Fits(m: Mark, dt: int, df: int) {
    && m.t <= 1 && m.f <= 1
    && (if m.t == 1 then 256 <= dt else 0 <= dt < 256)
    && (if m.f == 1 then 256 <= df else 0 <= df < 256)
  }

  // A branch that cannot reach goes through a long jump in one of the slots after it.
  function Exit(s: Branch, m: Mark, dt: int, df: int): seq<Insn>
    requires s.Jmp? ==> Fits(m, dt, df)
  {
    match s
    case RetK(k) => [StopK(k)]
    case RetA => [StopA]
    case Jmp(op, src) =>
      [If(op, src, if m.t == 1 then 0 else dt, if m.f == 1 then m.t else df)]
      + (if m.t == 1 then [Ja(dt - 1)] else [])
      + (if m.f == 1 then [Ja(df - (1 + m.t))] else [])
  }

  /** The operand of the branch of b when blocks start at the offsets in at. */
  function Hop(g: Graph, at: seq<nat>, b: Id, side: bool): int
    requires b < |g| == |at| && 0 <= g[b].Succ(side) < |g|
  {
    at[g[b].Succ(side)] - at[b] - |Live(g[b].stmts)| - 1
  }

  function HopT(g: Graph, at: seq<nat>, b: Id): int
    requires Closed(g) && b < |g| == |at|
  {
    if g[b].s.Jmp? then Hop(g, at, b, true) else 0
  }

  function HopF(g: Graph, at: seq<nat>, b: Id): int
    requires Closed(g) && b < |g| == |at|
  {
    if g[b].s.Jmp? then Hop(g, at, b, false) else 0
  }

  /** The instructions of block b stand at its offset: its statements, then its exit. */
  predicate PlacedAt(g: Graph, L: Marks, at: seq<nat>, code: seq<Insn>, b: Id)
    requires Closed(g) && b < |g| == |at| == |L|
  {
    var k := |Live(g[b].stmts)|;
    && at[b] + BlockSlots(g, L, b) <= |code|
    && code[at[b]..at[b] + k] == Dos(Live(g[b].stmts))
    && (g[b].s.Jmp? ==> Fits(L[b], HopT(g, at, b), HopF(g, at, b)))
    && code[at[b] + k..at[b] + BlockSlots(g, L, b)] == Exit(g[b].s, L[b], HopT(g, at, b), HopF(g, at, b))
  }

  predicate AllPlaced(g: Graph, L: Marks, at: seq<nat>, code: seq<Insn>, T: set<Id>)
    requires Closed(g) && |g| == |at| == |L| && ClosedUnder(g, T)
  {
    forall b {:trigger PlacedAt(g, L, at, code, b)} :: b in T ==> PlacedAt(g, L, at, code, b)
  }

  lemma {:induction false} RunDos(code: seq<Insn>, pc: nat, ss: seq<Stmt>, st: State, p: Packet)
    requires pc + |ss| <= |code| && code[pc..pc + |ss|] == Dos(ss)
    ensures RunCode(code, pc, st, p)
         == match Exec(ss, st, p) case None => Fault case Some(st') => RunCode(code, pc + |ss|, st', p)
    decreases |ss|
  {
    hide Value;
    if |ss| != 0 {
      assert code[pc] == code[pc..pc + |ss|][0] == Do(ss[0]);
      match Step(ss[0], st, p) {
        case None =>
        case Some(st') =>
          assert code[pc + 1..pc + 1 + |ss[1..]|] == code[pc..pc + |ss|][1..] == Dos(ss[1..]);
          RunDos(code, pc + 1, ss[1..], st', p);
      }
    }
  }

  /** Running the exit of a branch lands on the chosen successor, through a long jump or not. */
  lemma {:induction false} RunExit(code: seq<Insn>, pc: nat, s: Branch, m: Mark, dt: nat, df: nat, st: State, p: Packet)
    requires s.Jmp? && Fits(m, dt, df)
    requires pc + |Exit(s, m, dt, df)| <= |code| && code[pc..pc + |Exit(s, m, dt, df)|] == Exit(s, m, dt, df)
    ensures RunCode(code, pc, st, p)
         == RunCode(code, pc + 1 + (if Taken(s, st) then dt else df), st, p)
  {
    hide Value;
    var x := Exit(s, m, dt, df);
    assert code[pc] == code[pc..pc + |x|][0] == x[0];
    assert m.t == 1 ==> code[pc + 1] == code[pc..pc + |x|][1] == x[1];
    assert m.f == 1 ==> code[pc + 1 + m.t] == code[pc..pc + |x|][1 + m.t] == x[1 + m.t];
  }

  /** Running statements and exit laid out at pc. */
  lemma {:induction false} RunPieces(code: seq<Insn>, pc: nat, n: Node, m: Mark, dt: nat, df: nat, st: State, p: Packet)
    requires n.s.Jmp? ==> Fits(m, dt, df)
    requires var k := |Live(n.stmts)|; var x := Exit(n.s, m, dt, df);
      pc + k + |x| <= |code| && code[pc..pc + k] == Dos(Live(n.stmts)) && code[pc + k..pc + k + |x|] == x
    ensures RunCode(code, pc, st, p)
         == var l := Land(n, st, p);
            if l.Done? then l.o
            else RunCode(code, pc + |Live(n.stmts)| + 1 + (if l.side then dt else df), l.st, p)
  {
    hide Value;
    var k := |Live(n.stmts)|;
    var x := Exit(n.s, m, dt, df);
    RunDos(code, pc, Live(n.stmts), st, p);
    ExecLive(n.stmts, st, p);
    if Exec(n.stmts, st, p).Some? {
      if n.s.Jmp? {
        RunExit(code, pc + k, n.s, m, dt, df, Exec(n.stmts, st, p).value, p);
      } else {
        assert code[pc + k] == code[pc + k..pc + k + |x|][0] == x[0];
      }
    }
  }

  lemma {:induction false} LandSides(n: Node, st: State, p: Packet)
    ensures Land(n, st, p).Next? ==> n.s.Jmp?
  {
  }

  /** From at[b] the array does what block b does, then goes on at its successor. */
  predicate Tracks(g: Graph, at: seq<nat>, code: seq<Insn>, b: Id, st: State, p: Packet)
    requires Closed(g) && b < |g| == |at|
  {
    LandSides(g[b], st, p);
    var l := Land(g[b], st, p);
    RunCode(code, at[b], st, p) == if l.Done? then l.o else RunCode(code, at[g[b].Succ(l.side)], l.st, p)
  }

  lemma {:induction false} PlacedTracks(g: Graph, L: Marks, at: seq<nat>, code: seq<Insn>, b: Id, st: State, p: Packet)
    requires Closed(g) && b < |g| == |at| == |L| && (!g[b].s.Jmp? ==> L[b] == Mark(0, 0)) && PlacedAt(g, L, at, code, b)
    ensures Tracks(g, at, code, b, st, p)
  {
    LandSides(g[b], st, p);
    RunPieces(code, at[b], g[b], L[b], HopT(g, at, b), HopF(g, at, b), st, p);
  }

  lemma {:induction false} BlockTracks(g: Graph, L: Marks, at: seq<nat>, code: seq<Insn>, T: set<Id>, b: Id, st: State, p: Packet)
    requires Closed(g) && MarksFor(g, L) && |at| == |g|
    requires ClosedUnder(g, T) && AllPlaced(g, L, at, code, T) && b in T
    ensures Tracks(g, at, code, b, st, p)
    ensures Land(g[b], st, p).Next? ==> g[b].s.Jmp? && g[b].Succ(Land(g[b], st, p).side) in T
  {
    hide Land, RunCode;
    assert PlacedAt(g, L, at, code, b);
    PlacedTracks(g, L, at, code, b, st, p);
    LandSides(g[b], st, p);
    assert SuccSet(g, b) <= T;
  }

  /** Flattening preserves meaning: from the start of any block the array returns or
      faults exactly as the graph does from that block. */
  lemma {:induction false} FlattenSimulates(g: Graph, lv: Levels, L: Marks, at: seq<nat>, code: seq<Insn>, T: set<Id>,
                                            b: Id, st: State, p: Packet, fuel: nat)
    requires Leveled(g, lv) && MarksFor(g, L) && |at| == |g|
    requires ClosedUnder(g, T) && AllPlaced(g, L, at, code, T) && b in T && lv[b] < fuel
    ensures RunCode(code, at[b], st, p) == Run(g, b, st, p, fuel)
    decreases fuel
  {
    hide Land, RunCode, PlacedAt, MarksFor, SuccSet, AllPlaced;
    BlockTracks(g, L, at, code, T, b, st, p);
    var l := Land(g[b], st, p);
    if l.Next? {
      FlattenSimulates(g, lv, L, at, code, T, g[b].Succ(l.side), l.st, p, fuel - 1);
    }
  }

  /** Every jump goes forward and stays inside the program. */
  predicate Forward(code: seq<Insn>) {
    forall i {:trigger ForwardAt(code, i)} :: 0 <= i < |code| ==> ForwardAt(code, i)
  }

  predicate ForwardAt(code: seq<Insn>, i: nat)
    requires i < |code|
  {
    match code[i]
    case If(_, _, jt, jf) => i + 1 + jt < |code| && i + 1 + jf < |code|
    case Ja(d) => i + 1 + d < |code|
    case _ => true
  }

  /** Every slot belongs to a block, counting slots from the end of the program. */
  lemma {:induction false} SlotOwner(g: Graph, L: Marks, ord: seq<Id>, y: nat) returns (b: Id)
    requires Within(g, ord) && |g| == |L| && NoDup(ord) && 0 < y <= Slots(g, L, ord)
    ensures b in ord && Below(g, L, ord, b) - BlockSlots(g, L, b) < y <= Below(g, L, ord, b)
  {
    var n := |ord| - 1;
    if y <= Slots(g, L, ord[..n]) {
      b := SlotOwner(g, L, ord[..n], y);
      BelowPrefix(g, L, ord[..n], ord, b);
    } else {
      b := ord[n];
    }
  }

  /** No slot belongs to two blocks. */
  lemma {:induction false} SlotsDisjoint(g: Graph, L: Marks, ord: seq<Id>, b: Id, c: Id)
    requires Within(g, ord) && |g| == |L| && NoDup(ord) && b in ord && c in ord && b != c
    ensures Below(g, L, ord, b) <= Below(g, L, ord, c) - BlockSlots(g, L, c)
         || Below(g, L, ord, c) <= Below(g, L, ord, b) - BlockSlots(g, L, b)
  {
    var i :| 0 <= i < |ord| && ord[i] == b;
    var j :| 0 <= j < |ord| && ord[j] == c;
    if i < j { BelowAhead(g, L, ord, i, j); } else { BelowAhead(g, L, ord, j, i); }
  }

  lemma {:induction false} PlacedForward(g: Graph, L: Marks, at: seq<nat>, code: seq<Insn>, b: Id, i: nat)
    requires Closed(g) && b < |g| == |at| == |L| && MarksFor(g, L) && PlacedAt(g, L, at, code, b)
    requires at[b] <= i < at[b] + BlockSlots(g, L, b) && i < |code|
    requires g[b].s.Jmp? ==> at[g[b].jt] < |code| && at[g[b].jf] < |code|
    ensures ForwardAt(code, i)
  {
    var k := |Live(g[b].stmts)|;
    var x := Exit(g[b].s, L[b], HopT(g, at, b), HopF(g, at, b));
    if i < at[b] + k {
      assert code[i] == code[at[b]..at[b] + k][i - at[b]];
    } else {
      assert code[i] == code[at[b] + k..at[b] + BlockSlots(g, L, b)][i - at[b] - k] == x[i - at[b] - k];
    }
  }
}
